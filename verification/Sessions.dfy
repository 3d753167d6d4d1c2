/** What one dispatch session means, as functions of its snapshot. */
module Sessions {
  import opened Resources
  import opened Api
  import opened Sorting
  import opened Orders
  import opened Rounds

  type QueueTry = Try<QueueInfo, ResourceBindingInfo>

  function Resolve(ss: Snapshot, b: ResourceBindingInfo): string {
    QueueOf(ss.defaultQueue, b)
  }

  // ----- the order of tries -----

  ghost function Pending(ss: Snapshot, q: string): set<ResourceBindingInfo> {
    set u | u in ss.infos && ss.infos[u].status == Suspended && Resolve(ss, ss.infos[u]) == q :: ss.infos[u]
  }

  /** The queues with something to dispatch. */
  ghost function ActiveQueues(ss: Snapshot): set<QueueInfo> {
    set n | n in ss.queues && Pending(ss, n) != {} :: ss.queues[n]
  }

  ghost function QueueOrder(ss: Snapshot): seq<QueueInfo>
    requires ValidSnapshot(ss)
  {
    QueueLessStrictTotal(ActiveQueues(ss));
    Sort(QueueLess, ActiveQueues(ss))
  }

  ghost function BindingOrder(ss: Snapshot, q: string): seq<ResourceBindingInfo>
    requires ValidSnapshot(ss)
  {
    BindingLessStrictTotal(Pending(ss, q));
    Sort(BindingLess, Pending(ss, q))
  }

  ghost function BindingLists(ss: Snapshot): Lists<QueueInfo, ResourceBindingInfo>
    requires ValidSnapshot(ss)
  {
    map q | q in ActiveQueues(ss) :: BindingOrder(ss, q.name)
  }

  lemma QueueOrderMembers(ss: Snapshot, q: QueueInfo)
    requires ValidSnapshot(ss)
    ensures q in QueueOrder(ss) <==> q in ActiveQueues(ss)
  {
    QueueLessStrictTotal(ActiveQueues(ss));
    SortMembers(QueueLess, ActiveQueues(ss));
  }

  lemma BindingOrderMembers(ss: Snapshot, q: string, b: ResourceBindingInfo)
    requires ValidSnapshot(ss)
    ensures b in BindingOrder(ss, q) <==> b in Pending(ss, q)
  {
    BindingLessStrictTotal(Pending(ss, q));
    SortMembers(BindingLess, Pending(ss, q));
  }

  ghost function Tries(ss: Snapshot): seq<QueueTry>
    requires ValidSnapshot(ss)
  {
    RoundRobin(QueueOrder(ss), BindingLists(ss))
  }

  lemma AscendingDistinct<T(!new)>(less: (T, T) -> bool, s: set<T>)
    requires StrictTotalOn(less, s)
    ensures Distinct(Sort(less, s))
  {
    SortAscends(less, s);
    SortMembers(less, s);
    var xs := Sort(less, s);
    forall i: nat, j: nat ensures Differ(xs, i, j) {
      if i < j < |xs| {
        assert xs[i] in xs && InOrder(less, xs, i, j) && OrderedAt(less, s, xs[i], xs[i], xs[i]);
      }
    }
  }

  /** A try of a suspended binding at the queue it resolves to. */
  ghost predicate TryOk(ss: Snapshot, t: QueueTry) {
    && t.queue.name in ss.queues && ss.queues[t.queue.name] == t.queue && t.queue.uid == t.queue.name
    && t.binding.rb.uid in ss.infos && ss.infos[t.binding.rb.uid] == t.binding
    && t.binding.status == Suspended && Resolve(ss, t.binding) == t.queue.name
  }

  /** Tries of pending bindings, none of them twice. */
  ghost predicate Sound(ss: Snapshot, ts: seq<QueueTry>) {
    && (forall i | 0 <= i < |ts| :: TryOk(ss, ts[i]))
    && (forall i, j | 0 <= i < j < |ts| :: ts[i].binding.rb.uid != ts[j].binding.rb.uid)
  }

  lemma TriesAreOk(ss: Snapshot)
    requires ValidSnapshot(ss)
    ensures forall t | t in Tries(ss) :: TryOk(ss, t)
  {
    TriedIsListed(QueueOrder(ss), BindingLists(ss), Longest(QueueOrder(ss), BindingLists(ss)));
    forall t | t in Tries(ss) ensures TryOk(ss, t) {
      QueueOrderMembers(ss, t.queue);
      BindingOrderMembers(ss, t.queue.name, t.binding);
      PendingIsOk(ss, t);
    }
  }

  lemma PendingIsOk(ss: Snapshot, t: QueueTry)
    requires ValidSnapshot(ss) && t.queue in ActiveQueues(ss) && t.binding in Pending(ss, t.queue.name)
    ensures TryOk(ss, t)
  {
  }

  /** From one queue's side: exactly its pending bindings, in order. */
  lemma TriesOfQueue(ss: Snapshot, q: QueueInfo)
    requires ValidSnapshot(ss) && q.name in ss.queues && ss.queues[q.name] == q
    ensures Project(Tries(ss), q) == BindingOrder(ss, q.name)
  {
    QueueLessStrictTotal(ActiveQueues(ss));
    AscendingDistinct(QueueLess, ActiveQueues(ss));
    QueueOrderMembers(ss, q);
    if q in ActiveQueues(ss) {
      ProjectRoundRobin(QueueOrder(ss), BindingLists(ss), q);
    } else {
      assert Pending(ss, q.name) == {};
      TriesAreOk(ss);
      forall t | t in Tries(ss) ensures t.queue != q {
        assert TryOk(ss, t);
        assert t.binding in Pending(ss, t.queue.name);
      }
      ProjectNone(Tries(ss), q);
    }
  }

  lemma TriesAreSound(ss: Snapshot)
    requires ValidSnapshot(ss)
    ensures Sound(ss, Tries(ss))
  {
    TriesAreOk(ss);
    var ts := Tries(ss);
    forall q ensures Distinct(Project(ts, q)) {
      if q.name in ss.queues && ss.queues[q.name] == q {
        TriesOfQueue(ss, q);
        BindingLessStrictTotal(Pending(ss, q.name));
        AscendingDistinct(BindingLess, Pending(ss, q.name));
      } else {
        assert forall t | t in ts :: TryOk(ss, t);
        ProjectNone(ts, q);
      }
    }
    DistinctFromProjections(ts);
    DistinctTriesDistinctBindings(ss, ts);
  }

  lemma DistinctTriesDistinctBindings(ss: Snapshot, ts: seq<QueueTry>)
    requires Distinct(ts) && forall t | t in ts :: TryOk(ss, t)
    ensures Sound(ss, ts)
  {
    forall i, j | 0 <= i < j < |ts| ensures ts[i].binding.rb.uid != ts[j].binding.rb.uid {
      assert TryOk(ss, ts[i]) && TryOk(ss, ts[j]) && Differ(ts, i, j);
    }
  }

  lemma TryPosition(ts: seq<QueueTry>, q: QueueInfo, b: ResourceBindingInfo) returns (i: nat)
    requires b in Project(ts, q)
    ensures i < |ts| && ts[i] == Try(q, b)
  {
    ProjectMembers(ts, q, b);
    i :| 0 <= i < |ts| && ts[i] == Try(q, b);
  }

  ghost predicate TriedAt(ts: seq<QueueTry>, u: UID, i: nat) {
    i < |ts| && ts[i].binding.rb.uid == u
  }

  lemma SoundTries(ss: Snapshot, ts: seq<QueueTry>, u: UID, i: nat, j: nat)
    requires Sound(ss, ts) && TriedAt(ts, u, i) && TriedAt(ts, u, j)
    ensures i == j && u in ss.infos && ss.infos[u].status == Suspended && Resolve(ss, ss.infos[u]) in ss.queues
    ensures ts[i].binding == ss.infos[u] && Joins(ss, ss.infos[u], ts[i].queue.name)
  {
    assert TryOk(ss, ts[i]);
  }

  /** The binding joins this queue: the one it names, or, naming none, the default one. */
  predicate Joins(ss: Snapshot, b: ResourceBindingInfo, q: string) {
    if b.queue != "" then q == b.queue else q == ss.defaultQueue
  }

  /** Exactly once: a binding is tried iff it is in the snapshot, suspended, and the queue it joins
      exists, and then at one position only, at that queue. */
  lemma TriedExactlyOnce(ss: Snapshot, u: UID)
    requires ValidSnapshot(ss)
    ensures (exists i: nat :: TriedAt(Tries(ss), u, i))
       <==> && u in ss.infos && ss.infos[u].status == Suspended
            && exists q :: q in ss.queues && Joins(ss, ss.infos[u], q)
    ensures forall i: nat | TriedAt(Tries(ss), u, i) ::
              u in ss.infos && Tries(ss)[i].binding == ss.infos[u] && Joins(ss, ss.infos[u], Tries(ss)[i].queue.name)
    ensures forall i: nat, j: nat | TriedAt(Tries(ss), u, i) && TriedAt(Tries(ss), u, j) :: i == j
  {
    var ts := Tries(ss);
    assert Sound(ss, ts) by { TriesAreSound(ss); }
    forall i: nat, j: nat | TriedAt(ts, u, i) && TriedAt(ts, u, j)
      ensures i == j && u in ss.infos && ss.infos[u].status == Suspended && Resolve(ss, ss.infos[u]) in ss.queues
      ensures ts[i].binding == ss.infos[u] && Joins(ss, ss.infos[u], ts[i].queue.name)
    {
      SoundTries(ss, ts, u, i, j);
    }
    if u in ss.infos && ss.infos[u].status == Suspended && Resolve(ss, ss.infos[u]) in ss.queues {
      var i := TurnOf(ss, u);
      assert Joins(ss, ss.infos[u], Resolve(ss, ss.infos[u]));
    }
  }

  lemma TurnOf(ss: Snapshot, u: UID) returns (i: nat)
    requires ValidSnapshot(ss)
    requires u in ss.infos && ss.infos[u].status == Suspended && Resolve(ss, ss.infos[u]) in ss.queues
    ensures TriedAt(Tries(ss), u, i)
  {
    var q := ss.queues[Resolve(ss, ss.infos[u])];
    TriesOfQueue(ss, q);
    assert ss.infos[u] in Pending(ss, q.name);
    BindingOrderMembers(ss, q.name, ss.infos[u]);
    i := TryPosition(Tries(ss), q, ss.infos[u]);
  }

  // ----- capacity -----

  /** A declared CPU or memory that is not positive means no limit. */
  function Declared(capability: Resource): Resource {
    map d | d in capability && !(d in {CPU, MEMORY} && capability[d] == 0) :: capability[d]
  }

  function RealCapability(total: Resource, capability: Resource): Resource {
    if |capability| == 0 then total else MinDimension(total, Declared(capability))
  }

  /** A dimension the capability does not declare, or declares as no CPU or no memory, is limited by
      the cluster total alone; any other by the smaller of the two. */
  lemma RealCapabilityMeaning(total: Resource, capability: Resource, d: Dim)
    ensures Get(RealCapability(total, capability), d)
         == if d !in capability || (d in {CPU, MEMORY} && capability[d] == 0) then Get(total, d)
            else if capability[d] < Get(total, d) then capability[d]
            else Get(total, d)
  {
  }

  function Requests(infos: map<UID, ResourceBindingInfo>): map<UID, Resource> {
    map u | u in infos :: Request(infos[u])
  }

  /** The bindings that occupy capacity of a queue: resolved to it and no longer suspended. */
  function Occupying(ss: Snapshot, infos: map<UID, ResourceBindingInfo>, q: string): set<UID> {
    set u | u in infos && infos[u].status != Suspended && Resolve(ss, infos[u]) == q
  }

  ghost function Load(ss: Snapshot, infos: map<UID, ResourceBindingInfo>, q: string): Resource {
    Sum(Occupying(ss, infos, q), Requests(infos))
  }

  /** The queues some binding of the snapshot resolves to; these get an attribute. */
  function AttrQueues(ss: Snapshot): set<string> {
    set u | u in ss.infos && Resolve(ss, ss.infos[u]) in ss.queues :: Resolve(ss, ss.infos[u])
  }

  function Limit(ss: Snapshot, q: QueueInfo): Resource {
    RealCapability(ss.total, q.capability)
  }

  /** A queue's limit in one dimension; zero for a queue that does not exist. */
  function LimitAt(ss: Snapshot, q: string, d: Dim): nat {
    if q in ss.queues then Get(Limit(ss, ss.queues[q]), d) else 0
  }

  predicate Fits(alloc: Resource, limit: Resource, request: Resource) {
    LessEqualWithDimension(Add(alloc, request), limit, request)
  }

  /** A request fits iff the limit is kept in every dimension it asks for, whatever is allocated in
      the others. */
  lemma FitsMeaning(alloc: Resource, limit: Resource, request: Resource)
    ensures Fits(alloc, limit, request)
       <==> forall d :: Get(request, d) > 0 ==> Get(alloc, d) + Get(request, d) <= Get(limit, d)
  {
    if Fits(alloc, limit, request) {
      forall d | Get(request, d) > 0 ensures Get(alloc, d) + Get(request, d) <= Get(limit, d) {
        assert d in request && request[d] > 0;
      }
    }
  }

  // ----- the session as a fold over its tries -----

  datatype SessionState = SessionState(
    alloc: map<string, Resource>,
    infos: map<UID, ResourceBindingInfo>,
    dispatched: seq<QueueTry>)

  ghost function Open(ss: Snapshot): SessionState {
    SessionState(map q | q in AttrQueues(ss) :: Load(ss, ss.infos, q), ss.infos, [])
  }

  /** One try: allocated under the queue the binding names itself, dispatched when that
      works, and otherwise nothing. */
  function TryBinding(ss: Snapshot, st: SessionState, t: QueueTry): SessionState {
    var b := t.binding;
    if t.queue.uid in st.alloc && Fits(st.alloc[t.queue.uid], Limit(ss, t.queue), Request(b))
       && b.queue in st.alloc then
      SessionState(
        st.alloc[b.queue := Add(st.alloc[b.queue], Request(b))],
        st.infos[b.rb.uid := b.(status := UnSuspending)],
        st.dispatched + [t])
    else st
  }

  ghost function Run(ss: Snapshot, tries: seq<QueueTry>): SessionState {
    if tries == [] then Open(ss)
    else TryBinding(ss, Run(ss, tries[..|tries| - 1]), tries[|tries| - 1])
  }

  ghost function Outcome(ss: Snapshot): SessionState
    requires ValidSnapshot(ss)
  {
    Run(ss, Tries(ss))
  }

  function Keys(ts: seq<QueueTry>): seq<Key> {
    seq(|ts|, i requires 0 <= i < |ts| => ts[i].binding.rb.key)
  }

  /** The unsuspend requests a session makes, in order. */
  ghost function Decisions(ss: Snapshot): seq<Key>
    requires ValidSnapshot(ss)
  {
    Keys(Outcome(ss).dispatched)
  }

  ghost predicate InfoAt(ss: Snapshot, st: SessionState, u: UID) {
    u in ss.infos ==>
      && u in st.infos
      && st.infos[u] == if IsDispatched(st.dispatched, u) then ss.infos[u].(status := UnSuspending) else ss.infos[u]
  }

  /** What tries leave in place: the queues with an attribute, each binding as opened or, if
      dispatched, unsuspending. */
  ghost predicate Shape(ss: Snapshot, ts: seq<QueueTry>, st: SessionState) {
    && st.alloc.Keys == AttrQueues(ss)
    && st.infos.Keys == ss.infos.Keys
    && (forall u :: InfoAt(ss, st, u))
    && (forall t | t in st.dispatched :: t in ts)
  }

  ghost predicate IsDispatched(ts: seq<QueueTry>, u: UID) {
    exists t :: t in ts && t.binding.rb.uid == u
  }

  lemma SoundInit(ss: Snapshot, ts: seq<QueueTry>)
    requires Sound(ss, ts) && ts != []
    ensures var init, t := ts[..|ts| - 1], ts[|ts| - 1];
            && Sound(ss, init) && TryOk(ss, t) && ts == init + [t]
            && forall s | s in init :: s.binding.rb.uid != t.binding.rb.uid
  {
    var init, t := ts[..|ts| - 1], ts[|ts| - 1];
    assert forall i | 0 <= i < |init| :: init[i] == ts[i] && TryOk(ss, ts[i]);
  }

  lemma DispatchedSnoc(done: seq<QueueTry>, t: QueueTry, u: UID)
    ensures IsDispatched(done + [t], u) <==> IsDispatched(done, u) || u == t.binding.rb.uid
  {
    assert t in done + [t];
    assert forall s :: s in done + [t] <==> s in done || s == t;
  }

  lemma InfoAtStep(ss: Snapshot, st: SessionState, t: QueueTry, u: UID)
    requires InfoAt(ss, st, u) && TryOk(ss, t)
    ensures InfoAt(ss, TryBinding(ss, st, t), u)
  {
    DispatchedSnoc(st.dispatched, t, u);
  }

  lemma TriedStep(ss: Snapshot, ts: seq<QueueTry>, st: SessionState, t: QueueTry, s: QueueTry)
    requires (s in st.dispatched ==> s in ts) && s in TryBinding(ss, st, t).dispatched
    ensures s in ts + [t]
  {
  }

  lemma KeysStep(ss: Snapshot, st: SessionState, t: QueueTry)
    requires st.alloc.Keys == AttrQueues(ss) && st.infos.Keys == ss.infos.Keys && TryOk(ss, t)
    ensures TryBinding(ss, st, t).alloc.Keys == AttrQueues(ss) && TryBinding(ss, st, t).infos.Keys == ss.infos.Keys
  {
  }

  lemma ShapeStep(ss: Snapshot, ts: seq<QueueTry>, st: SessionState, t: QueueTry)
    requires Shape(ss, ts, st) && TryOk(ss, t)
    ensures Shape(ss, ts + [t], TryBinding(ss, st, t))
  {
    KeysStep(ss, st, t);
    forall u ensures InfoAt(ss, TryBinding(ss, st, t), u) {
      assert InfoAt(ss, st, u);
      InfoAtStep(ss, st, t, u);
    }
    forall s | s in TryBinding(ss, st, t).dispatched ensures s in ts + [t] {
      TriedStep(ss, ts, st, t, s);
    }
  }

  lemma {:induction false} ShapeHolds(ss: Snapshot, ts: seq<QueueTry>)
    requires Sound(ss, ts)
    ensures Shape(ss, ts, Run(ss, ts))
  {
    if ts != [] {
      SoundInit(ss, ts);
      ShapeHolds(ss, ts[..|ts| - 1]);
      ShapeStep(ss, ts[..|ts| - 1], Run(ss, ts[..|ts| - 1]), ts[|ts| - 1]);
    }
  }

  /** When its turn comes a binding is still suspended and its queue has an attribute, so no
      lookup of the loop misses; the plugin's own lookup misses exactly for a binding that
      names no queue. */
  lemma TurnIsReady(ss: Snapshot, ts: seq<QueueTry>, t: QueueTry)
    requires ValidSnapshot(ss) && Sound(ss, ts + [t])
    ensures var st := Run(ss, ts);
            && t.queue.uid in st.alloc
            && t.binding.rb.uid in st.infos && st.infos[t.binding.rb.uid] == t.binding
            && (t.binding.queue in st.alloc <==> t.binding.queue != "")
            && (t.binding.queue != "" ==> t.binding.queue == t.queue.uid)
  {
    SoundInit(ss, ts + [t]);
    assert (ts + [t])[..|ts|] == ts;
    ShapeHolds(ss, ts);
    assert InfoAt(ss, Run(ss, ts), t.binding.rb.uid);
    assert "" !in AttrQueues(ss);
    assert Resolve(ss, ss.infos[t.binding.rb.uid]) in AttrQueues(ss);
  }

  // ----- accounting -----

  lemma OccupyOne(ss: Snapshot, infos: map<UID, ResourceBindingInfo>, u: UID, q: string)
    requires u in infos && infos[u].status == Suspended
    ensures Load(ss, infos[u := infos[u].(status := UnSuspending)], q)
         == if Resolve(ss, infos[u]) == q then Add(Load(ss, infos, q), Request(infos[u])) else Load(ss, infos, q)
  {
    var after := infos[u := infos[u].(status := UnSuspending)];
    assert Requests(after) == Requests(infos);
    if Resolve(ss, infos[u]) == q {
      assert Occupying(ss, after, q) == Occupying(ss, infos, q) + {u};
      SumPut(Occupying(ss, infos, q), Requests(infos), u);
    } else {
      assert Occupying(ss, after, q) == Occupying(ss, infos, q);
    }
  }

  /** The load of a queue after one more try, in terms of its load before. */
  lemma LoadStep(ss: Snapshot, ts: seq<QueueTry>, t: QueueTry, q: string)
    requires ValidSnapshot(ss) && Sound(ss, ts + [t])
    ensures Load(ss, TryBinding(ss, Run(ss, ts), t).infos, q)
         == if TryBinding(ss, Run(ss, ts), t) != Run(ss, ts) && t.queue.name == q
            then Add(Load(ss, Run(ss, ts).infos, q), Request(t.binding))
            else Load(ss, Run(ss, ts).infos, q)
  {
    TurnIsReady(ss, ts, t);
    SoundInit(ss, ts + [t]);
    OccupyOne(ss, Run(ss, ts).infos, t.binding.rb.uid, q);
  }

  /** Incremental accounting equals recomputation: after any tries, what a queue has allocated
      is the sum over the bindings resolved to it that are not suspended. */
  lemma {:induction false} AccountingIsExact(ss: Snapshot, ts: seq<QueueTry>, q: string)
    requires ValidSnapshot(ss) && Sound(ss, ts) && q in AttrQueues(ss)
    ensures q in Run(ss, ts).alloc && Run(ss, ts).alloc[q] == Load(ss, Run(ss, ts).infos, q)
  {
    if ts != [] {
      var init, t := ts[..|ts| - 1], ts[|ts| - 1];
      SoundInit(ss, ts);
      AccountingIsExact(ss, init, q);
      LoadStep(ss, init, t, q);
      TurnIsReady(ss, init, t);
    }
  }

  function Max(a: nat, b: nat): nat {
    if a < b then b else a
  }

  lemma FitsBounds(alloc: Resource, limit: Resource, request: Resource, d: Dim)
    requires Fits(alloc, limit, request)
    ensures Get(Add(alloc, request), d) <= Max(Get(alloc, d), Get(limit, d))
  {
    if Get(request, d) > 0 {
      assert d in request && request[d] > 0;
    }
  }

  /** Capacity bound: at no point of the session is a queue's load in any dimension above the
      larger of its load at the start and its limit. */
  lemma {:induction false} SessionCapacityBound(ss: Snapshot, ts: seq<QueueTry>, q: string, d: Dim)
    requires ValidSnapshot(ss) && Sound(ss, ts)
    ensures Get(Load(ss, Run(ss, ts).infos, q), d) <= Max(Get(Load(ss, ss.infos, q), d), LimitAt(ss, q, d))
  {
    if ts != [] {
      var init, t := ts[..|ts| - 1], ts[|ts| - 1];
      SoundInit(ss, ts);
      SessionCapacityBound(ss, init, q, d);
      LoadStep(ss, init, t, q);
      var before := Run(ss, init);
      if Run(ss, ts) != before && t.queue.name == q {
        assert q in AttrQueues(ss) by {
          assert Resolve(ss, ss.infos[t.binding.rb.uid]) == q;
        }
        AccountingIsExact(ss, init, q);
        FitsBounds(before.alloc[q], Limit(ss, t.queue), Request(t.binding), d);
      }
    }
  }
}
