/** Event handlers of a session: allocating runs them all, and when one fails deallocating runs
    them all again to roll back. */
module Framework {
  import opened Resources
  import opened Api
  import Capacity

  /** Both functions are optional; each answers the handler's new state and whether it succeeded. */
  datatype EventHandler<!S, !B> = EventHandler(
    allocateFunc: Option<(S, B) -> (S, bool)>,
    deallocateFunc: Option<(S, B) -> (S, bool)>)

  function Invoke<S, B>(f: Option<(S, B) -> (S, bool)>, s: S, b: B): (S, bool) {
    if f.Some? then f.value(s, b) else (s, true)
  }

  /** All handlers run, also after one has failed. */
  method Allocate<S, B>(handlers: seq<EventHandler<S, B>>, states: seq<S>, b: B) returns (after: seq<S>, ok: bool)
    requires |handlers| == |states|
    ensures |after| == |states|
    ensures forall i | 0 <= i < |states| :: after[i] == Invoke(handlers[i].allocateFunc, states[i], b).0
    ensures ok <==> forall i | 0 <= i < |states| :: Invoke(handlers[i].allocateFunc, states[i], b).1
  {
    after := [];
    var errors := 0;
    for n := 0 to |handlers|
      invariant |after| == n && errors >= 0
      invariant forall i | 0 <= i < n :: after[i] == Invoke(handlers[i].allocateFunc, states[i], b).0
      invariant errors == 0 <==> forall i | 0 <= i < n :: Invoke(handlers[i].allocateFunc, states[i], b).1
    {
      var (s, done) := Invoke(handlers[n].allocateFunc, states[n], b);
      after := after + [s];
      if !done {
        errors := errors + 1;
      }
    }
    ok := errors == 0;
  }

  method UnAllocate<S, B>(handlers: seq<EventHandler<S, B>>, states: seq<S>, b: B) returns (after: seq<S>, ok: bool)
    requires |handlers| == |states|
    ensures |after| == |states|
    ensures forall i | 0 <= i < |states| :: after[i] == Invoke(handlers[i].deallocateFunc, states[i], b).0
    ensures ok <==> forall i | 0 <= i < |states| :: Invoke(handlers[i].deallocateFunc, states[i], b).1
  {
    after := [];
    var errors := 0;
    for n := 0 to |handlers|
      invariant |after| == n && errors >= 0
      invariant forall i | 0 <= i < n :: after[i] == Invoke(handlers[i].deallocateFunc, states[i], b).0
      invariant errors == 0 <==> forall i | 0 <= i < n :: Invoke(handlers[i].deallocateFunc, states[i], b).1
    {
      var (s, done) := Invoke(handlers[n].deallocateFunc, states[n], b);
      after := after + [s];
      if !done {
        errors := errors + 1;
      }
    }
    ok := errors == 0;
  }

  /** What a handler must do for a rollback to be one, up to a notion of sameness: deallocating
      undoes a successful allocate and changes nothing after a failed one, which itself changed
      nothing. */
  ghost predicate RollsBack<S(!new), B(!new)>(h: EventHandler<S, B>, same: (S, S) -> bool) {
    forall s, b ::
      var (t, ok) := Invoke(h.allocateFunc, s, b);
      (!ok ==> t == s) && same(Invoke(h.deallocateFunc, t, b).0, s)
  }

  /** The dispatcher's error path: when some handler fails to allocate, all are deallocated, and
      every handler that rolls back ends as it began, those that had succeeded included. */
  method TryAllocate<S(!new), B(!new)>(handlers: seq<EventHandler<S, B>>, states: seq<S>, b: B,
                                       ghost same: (S, S) -> bool)
    returns (after: seq<S>, ok: bool)
    requires |handlers| == |states|
    ensures |after| == |states|
    ensures ok <==> forall i | 0 <= i < |states| :: Invoke(handlers[i].allocateFunc, states[i], b).1
    ensures ok ==> forall i | 0 <= i < |states| :: after[i] == Invoke(handlers[i].allocateFunc, states[i], b).0
    ensures !ok ==> forall i | 0 <= i < |states| && RollsBack(handlers[i], same) :: same(after[i], states[i])
  {
    after, ok := Allocate(handlers, states, b);
    if !ok {
      var rolledBack;
      after, rolledBack := UnAllocate(handlers, after, b);
    }
  }

  // ----- the capacity plugin's handler -----

  const CAPACITY: EventHandler<map<UID, Resource>, ResourceBindingInfo> :=
    EventHandler(Some(Capacity.Allocates), Some(Capacity.Deallocates))

  /** The same queues have the same amount allocated in every dimension. */
  ghost predicate SameAmounts(a: map<UID, Resource>, b: map<UID, Resource>) {
    a.Keys == b.Keys && forall u, d | u in a :: Get(a[u], d) == Get(b[u], d)
  }

  /** The capacity plugin rolls back: its two functions fail on exactly the same bindings. */
  lemma CapacityRollsBack()
    ensures RollsBack(CAPACITY, (a, b) => SameAmounts(a, b))
    ensures forall m, b :: Invoke(CAPACITY.allocateFunc, m, b).1 == Invoke(CAPACITY.deallocateFunc, m, b).1
  {
  }
}
