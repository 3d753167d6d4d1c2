/** The unsuspend protocol: informer events, snapshots, the dispatcher thread, any number of
    workers and one goroutine per patch, interleaved at the lock and work-queue boundaries. */
module Protocol {
  import opened Resources
  import opened Api
  import opened CacheModel
  import opened PriorityClasses
  import WQ = WorkQueues

  /** Where a key that was handed out is: with a worker that has not looked it up yet, in a
      patch request, in a failed patch before the status is put back, or before Done. */
  datatype Proc = Holding(key: Key) | Patching(key: Key) | Recovering(key: Key) | Finishing(key: Key)

  /** calls, starts and last record history: unsuspend calls made and patches started per key,
      and whether the latest patch of the key that came back succeeded. */
  datatype State = State(
    cache: CacheState,
    procs: multiset<Proc>,
    calls: map<Key, nat>,
    starts: map<Key, nat>,
    last: map<Key, bool>)

  datatype Action =
    | TakeSnapshot
    | CallUnSuspend(key: Key)
    | WorkerGet
    | WorkerLookup(key: Key)
    | PatchReturns(key: Key, ok: bool)
    | RecoverStatus(key: Key)
    | MarkDone(key: Key)
    | SetBinding(rb: ResourceBinding, lookup: WorkloadLookup)
    | DeleteBinding(key: Key)
    | ClassChange(event: ClassEvent)
    | ConfigChange(queues: map<string, QueueInfo>, clusters: map<string, Resource>)

  function Count(m: map<Key, nat>, k: Key): nat {
    if k in m then m[k] else 0
  }

  function Bump(m: map<Key, nat>, k: Key): map<Key, nat> {
    m[k := Count(m, k) + 1]
  }

  predicate Enabled(s: State, a: Action) {
    match a
    case WorkerGet => s.cache.tasks.queue != []
    case WorkerLookup(k) => Holding(k) in s.procs
    case PatchReturns(k, _) => Patching(k) in s.procs
    case RecoverStatus(k) => Recovering(k) in s.procs
    case MarkDone(k) => Finishing(k) in s.procs
    case _ => true
  }

  function Start(procs: multiset<Proc>, p: Proc): multiset<Proc> {
    procs[p := procs[p] + 1]
  }

  function End(procs: multiset<Proc>, p: Proc): multiset<Proc>
    requires p in procs
  {
    procs[p := procs[p] - 1]
  }

  function NextCache(c: CacheState, a: Action): CacheState
    requires a.WorkerGet? ==> c.tasks.queue != []
  {
    match a
    case TakeSnapshot => WithPriorities(c)
    case CallUnSuspend(k) => UnSuspend(c, k)
    case WorkerGet => c.(tasks := WQ.Get(c.tasks))
    case WorkerLookup(_) => c
    case PatchReturns(_, _) => c
    case RecoverStatus(k) => Recover(c, k)
    case MarkDone(k) => c.(tasks := WQ.Done(c.tasks, k))
    case SetBinding(rb, w) => SetResourceBinding(c, rb, w)
    case DeleteBinding(k) => DeleteResourceBinding(c, k)
    case ClassChange(e) => c.(pcs := Apply(c.pcs, e))
    case ConfigChange(queues, clusters) => c.(queues := queues, clusters := clusters)
  }

  /** A worker that misses its key in the cache leaves the loop: the key stays processing. */
  function NextProcs(s: State, a: Action): multiset<Proc>
    requires Enabled(s, a)
  {
    match a
    case WorkerGet => Start(s.procs, Holding(s.cache.tasks.queue[0]))
    case WorkerLookup(k) =>
      var rest := End(s.procs, Holding(k));
      if k in s.cache.infos then Start(rest, Patching(k)) else rest
    case PatchReturns(k, ok) => Start(End(s.procs, Patching(k)), if ok then Finishing(k) else Recovering(k))
    case RecoverStatus(k) => Start(End(s.procs, Recovering(k)), Finishing(k))
    case MarkDone(k) => End(s.procs, Finishing(k))
    case _ => s.procs
  }

  function NextCalls(calls: map<Key, nat>, a: Action): map<Key, nat> {
    if a.CallUnSuspend? then Bump(calls, a.key) else calls
  }

  function NextStarts(starts: map<Key, nat>, c: CacheState, a: Action): map<Key, nat> {
    if a.WorkerLookup? && a.key in c.infos then Bump(starts, a.key) else starts
  }

  function NextLast(last: map<Key, bool>, a: Action): map<Key, bool> {
    if a.PatchReturns? then last[a.key := a.ok] else last
  }

  function Next(s: State, a: Action): State
    requires Enabled(s, a)
  {
    State(
      NextCache(s.cache, a),
      NextProcs(s, a),
      NextCalls(s.calls, a),
      NextStarts(s.starts, s.cache, a),
      NextLast(s.last, a))
  }

  ghost predicate Init(s: State) {
    && s.cache.infos == map[] && s.cache.bindings == map[] && s.cache.tasks == WQ.NO_WORK
    && s.procs == multiset{} && s.calls == map[] && s.starts == map[] && s.last == map[]
  }

  /** A run: every action enabled where it happens. */
  ghost predicate Legal(s: State, actions: seq<Action>)
    decreases |actions|
  {
    actions != [] ==> Enabled(s, actions[0]) && Legal(Next(s, actions[0]), actions[1..])
  }

  ghost function Exec(s: State, actions: seq<Action>): State
    requires Legal(s, actions)
    decreases |actions|
  {
    if actions == [] then s else Exec(Next(s, actions[0]), actions[1..])
  }

  lemma HeadFirst<T>(xs: seq<T>, ys: seq<T>)
    requires xs != []
    ensures xs + ys == [xs[0]] + (xs[1..] + ys)
  {
  }

  lemma RunCons(s: State, a: Action, rest: seq<Action>)
    requires Enabled(s, a) && Legal(Next(s, a), rest)
    ensures Legal(s, [a] + rest) && Exec(s, [a] + rest) == Exec(Next(s, a), rest)
  {
    assert ([a] + rest)[1..] == rest;
  }

  lemma {:induction false} RunConcat(s: State, xs: seq<Action>, ys: seq<Action>)
    requires Legal(s, xs) && Legal(Exec(s, xs), ys)
    ensures Legal(s, xs + ys) && Exec(s, xs + ys) == Exec(Exec(s, xs), ys)
    decreases |xs|
  {
    if xs == [] {
      assert xs + ys == ys;
    } else {
      RunConcat(Next(s, xs[0]), xs[1..], ys);
      RunCons(s, xs[0], xs[1..] + ys);
      HeadFirst(xs, ys);
    }
  }

  // ----- the protocol of one key -----

  /** Everything the protocol knows about one key. */
  datatype KeyView = KeyView(
    dirty: bool, processing: bool,
    holding: int, patching: int, recovering: int, finishing: int,
    cached: bool, suspended: bool, unsuspending: bool,
    lastOk: bool, starts: int, calls: int)

  function ViewOf(s: State, k: Key): KeyView {
    KeyView(
      k in s.cache.tasks.dirty, k in s.cache.tasks.processing,
      s.procs[Holding(k)], s.procs[Patching(k)], s.procs[Recovering(k)], s.procs[Finishing(k)],
      k in s.cache.infos, HasStatus(s.cache, k, Suspended), IsUnSuspending(s, k),
      LastSucceeded(s, k), Count(s.starts, k), Count(s.calls, k))
  }

  predicate IsUnSuspending(s: State, k: Key) {
    HasStatus(s.cache, k, UnSuspending)
  }

  predicate LastSucceeded(s: State, k: Key) {
    k in s.last && s.last[k]
  }

  /** What an action is for one key. */
  datatype KeyEvent =
    | Nothing
    | Called
    | HandedOut
    | LookedUp
    | Returned(ok: bool)
    | PutBack
    | Finished
    | Stored(suspended: bool)
    | Removed

  function EventFor(s: State, a: Action, k: Key): KeyEvent
    requires Enabled(s, a)
  {
    match a
    case CallUnSuspend(j) => if j == k then Called else Nothing
    case WorkerGet => if s.cache.tasks.queue[0] == k then HandedOut else Nothing
    case WorkerLookup(j) => if j == k then LookedUp else Nothing
    case PatchReturns(j, ok) => if j == k then Returned(ok) else Nothing
    case RecoverStatus(j) => if j == k then PutBack else Nothing
    case MarkDone(j) => if j == k then Finished else Nothing
    case SetBinding(rb, w) => if rb.key == k && w.Workload? then Stored(SchedulingSuspended(rb.suspension)) else Nothing
    case DeleteBinding(j) => if j == k then Removed else Nothing
    case _ => Nothing
  }

  /** Which actions make which events. */
  lemma EventKinds(s: State, a: Action, k: Key)
    requires Enabled(s, a)
    ensures EventFor(s, a, k).Called? <==> a == CallUnSuspend(k)
    ensures EventFor(s, a, k).Removed? <==> a == DeleteBinding(k)
    ensures EventFor(s, a, k).LookedUp? <==> a == WorkerLookup(k)
    ensures EventFor(s, a, k).Stored? ==> a.SetBinding?
    ensures EventFor(s, a, k).Returned? <==> a.PatchReturns? && a.key == k
    ensures EventFor(s, a, k).Returned? ==> EventFor(s, a, k).ok == a.ok
  {
  }

  function KeyNext(v: KeyView, e: KeyEvent): KeyView {
    match e
    case Nothing => v
    case Called =>
      if v.cached then v.(suspended := false, unsuspending := true, dirty := true, calls := v.calls + 1)
      else v.(calls := v.calls + 1)
    case HandedOut => v.(dirty := false, processing := true, holding := v.holding + 1)
    case LookedUp =>
      if v.cached then v.(holding := v.holding - 1, patching := v.patching + 1, starts := v.starts + 1)
      else v.(holding := v.holding - 1)
    case Returned(ok) =>
      v.(patching := v.patching - 1, lastOk := ok,
         finishing := v.finishing + (if ok then 1 else 0), recovering := v.recovering + (if ok then 0 else 1))
    case PutBack =>
      v.(suspended := v.cached, unsuspending := false,
         recovering := v.recovering - 1, finishing := v.finishing + 1)
    case Finished => v.(processing := false, finishing := v.finishing - 1)
    case Stored(suspended) => v.(cached := true, suspended := suspended, unsuspending := false)
    case Removed => v.(cached := false, suspended := false, unsuspending := false)
  }

  predicate KeyEnabled(v: KeyView, e: KeyEvent) {
    match e
    case HandedOut => v.dirty && !v.processing
    case LookedUp => v.holding > 0
    case Returned(_) => v.patching > 0
    case PutBack => v.recovering > 0
    case Finished => v.finishing > 0
    case _ => true
  }

  function One(b: bool): int {
    if b then 1 else 0
  }

  ghost predicate TasksEffect(s: State, a: Action, t: WQ.WorkQueue, k: Key)
    requires Enabled(s, a)
  {
    var q, e := s.cache.tasks, EventFor(s, a, k);
    && (k in t.dirty <==> (k in q.dirty && !e.HandedOut?) || (e.Called? && k in s.cache.infos))
    && (k in t.processing <==> (k in q.processing && !e.Finished?) || e.HandedOut?)
  }

  lemma TasksView(s: State, a: Action, k: Key)
    requires Enabled(s, a)
    ensures TasksEffect(s, a, NextCache(s.cache, a).tasks, k)
  {
  }

  ghost predicate HandedEffect(s: State, a: Action, procs: multiset<Proc>, k: Key)
    requires Enabled(s, a)
  {
    var e := EventFor(s, a, k);
    && procs[Holding(k)] == s.procs[Holding(k)] + One(e.HandedOut?) - One(e.LookedUp?)
    && procs[Patching(k)] == s.procs[Patching(k)] + One(e.LookedUp? && k in s.cache.infos) - One(e.Returned?)
  }

  ghost predicate ReturnedEffect(s: State, a: Action, procs: multiset<Proc>, k: Key)
    requires Enabled(s, a)
  {
    var e := EventFor(s, a, k);
    && procs[Recovering(k)] == s.procs[Recovering(k)] + One(e.Returned? && !e.ok) - One(e.PutBack?)
    && procs[Finishing(k)] == s.procs[Finishing(k)] + One((e.Returned? && e.ok) || e.PutBack?) - One(e.Finished?)
  }

  lemma HandedView(s: State, a: Action, k: Key)
    requires Enabled(s, a)
    ensures HandedEffect(s, a, NextProcs(s, a), k)
  {
    match a {
      case WorkerGet =>
      case WorkerLookup(j) =>
      case PatchReturns(j, ok) =>
      case _ =>
    }
  }

  lemma ReturnedView(s: State, a: Action, k: Key)
    requires Enabled(s, a)
    ensures ReturnedEffect(s, a, NextProcs(s, a), k)
  {
    match a {
      case PatchReturns(j, ok) =>
      case RecoverStatus(j) =>
      case MarkDone(j) =>
      case _ =>
    }
  }

  ghost predicate CacheEffect(s: State, a: Action, c: CacheState, k: Key)
    requires Enabled(s, a)
  {
    var e := EventFor(s, a, k);
    && (k in c.infos <==> (k in s.cache.infos && !e.Removed?) || e.Stored?)
    && (HasStatus(c, k, UnSuspending) <==>
          || (IsUnSuspending(s, k) && !e.PutBack? && !e.Stored? && !e.Removed?)
          || (e.Called? && k in s.cache.infos))
    && (HasStatus(c, k, Suspended) <==>
          || (HasStatus(s.cache, k, Suspended) && !e.Called? && !e.Stored? && !e.Removed?)
          || (e.PutBack? && k in s.cache.infos)
          || (e.Stored? && e.suspended))
  }

  lemma CacheView(s: State, a: Action, k: Key)
    requires Enabled(s, a)
    ensures CacheEffect(s, a, NextCache(s.cache, a), k)
  {
  }

  ghost predicate HistoryEffect(s: State, a: Action, calls: map<Key, nat>, starts: map<Key, nat>,
                                last: map<Key, bool>, k: Key)
    requires Enabled(s, a)
  {
    var e := EventFor(s, a, k);
    && Count(calls, k) == Count(s.calls, k) + One(e.Called?)
    && Count(starts, k) == Count(s.starts, k) + One(e.LookedUp? && k in s.cache.infos)
    && (k in last && last[k] <==> if e.Returned? then e.ok else LastSucceeded(s, k))
  }

  lemma HistoryView(s: State, a: Action, k: Key)
    requires Enabled(s, a)
    ensures HistoryEffect(s, a, NextCalls(s.calls, a), NextStarts(s.starts, s.cache, a), NextLast(s.last, a), k)
  {
  }

  lemma EventEnabled(s: State, a: Action, k: Key)
    requires Enabled(s, a) && WQ.Valid(s.cache.tasks)
    ensures KeyEnabled(ViewOf(s, k), EventFor(s, a, k))
  {
    if a.WorkerGet? {
      assert s.cache.tasks.queue[0] in s.cache.tasks.queue;
    }
  }

  /** The effects of an event in terms of the key's own view. */
  predicate Effects(v: KeyView, e: KeyEvent, n: KeyView) {
    && (n.dirty <==> (v.dirty && !e.HandedOut?) || (e.Called? && v.cached))
    && (n.processing <==> (v.processing && !e.Finished?) || e.HandedOut?)
    && n.holding == v.holding + One(e.HandedOut?) - One(e.LookedUp?)
    && n.patching == v.patching + One(e.LookedUp? && v.cached) - One(e.Returned?)
    && n.recovering == v.recovering + One(e.Returned? && !e.ok) - One(e.PutBack?)
    && n.finishing == v.finishing + One((e.Returned? && e.ok) || e.PutBack?) - One(e.Finished?)
    && (n.cached <==> (v.cached && !e.Removed?) || e.Stored?)
    && (n.unsuspending <==> (v.unsuspending && !e.PutBack? && !e.Stored? && !e.Removed?) || (e.Called? && v.cached))
    && (n.suspended <==>
          || (v.suspended && !e.Called? && !e.Stored? && !e.Removed?)
          || (e.PutBack? && v.cached)
          || (e.Stored? && e.suspended))
    && n.calls == v.calls + One(e.Called?)
    && n.starts == v.starts + One(e.LookedUp? && v.cached)
    && (n.lastOk <==> if e.Returned? then e.ok else v.lastOk)
  }

  lemma EffectsOnView(s: State, a: Action, t: State, k: Key)
    requires Enabled(s, a)
    requires TasksEffect(s, a, t.cache.tasks, k) && CacheEffect(s, a, t.cache, k)
    requires HandedEffect(s, a, t.procs, k) && ReturnedEffect(s, a, t.procs, k)
    requires HistoryEffect(s, a, t.calls, t.starts, t.last, k)
    ensures Effects(ViewOf(s, k), EventFor(s, a, k), ViewOf(t, k))
  {
  }

  lemma EffectsDetermine(v: KeyView, e: KeyEvent, n: KeyView)
    requires Effects(v, e, n) && (v.suspended || v.unsuspending ==> v.cached)
    ensures n == KeyNext(v, e)
  {
    match e {
      case Called =>
      case Returned(ok) =>
      case Stored(suspended) =>
      case _ =>
    }
  }

  lemma ViewFromEffects(s: State, a: Action, t: State, k: Key)
    requires Enabled(s, a)
    requires TasksEffect(s, a, t.cache.tasks, k) && CacheEffect(s, a, t.cache, k)
    requires HandedEffect(s, a, t.procs, k) && ReturnedEffect(s, a, t.procs, k)
    requires HistoryEffect(s, a, t.calls, t.starts, t.last, k)
    ensures ViewOf(t, k) == KeyNext(ViewOf(s, k), EventFor(s, a, k))
  {
    EffectsOnView(s, a, t, k);
    EffectsDetermine(ViewOf(s, k), EventFor(s, a, k), ViewOf(t, k));
  }

  /** Every action acts on each key as that key's own step. */
  lemma ViewStep(s: State, a: Action, k: Key)
    requires Enabled(s, a) && WQ.Valid(s.cache.tasks)
    ensures KeyEnabled(ViewOf(s, k), EventFor(s, a, k))
    ensures ViewOf(Next(s, a), k) == KeyNext(ViewOf(s, k), EventFor(s, a, k))
  {
    TasksView(s, a, k);
    CacheView(s, a, k);
    HandedView(s, a, k);
    ReturnedView(s, a, k);
    HistoryView(s, a, k);
    EventEnabled(s, a, k);
    ViewFromEffects(s, a, Next(s, a), k);
  }

  /** A key is handed out to one process at a time, and only while it is processing; an
      unsuspending binding has its request waiting, handed out, or answered with success; and
      patches started plus requests still waiting stay within the calls made. */
  predicate KeyInv(v: KeyView) {
    && v.holding >= 0 && v.patching >= 0 && v.recovering >= 0 && v.finishing >= 0
    && Tokens(v) <= 1
    && (Tokens(v) == 1 ==> v.processing)
    && (v.suspended ==> v.cached && !v.unsuspending)
    && (v.unsuspending ==> v.cached && (v.dirty || v.processing || v.lastOk))
    && (v.unsuspending && v.finishing == 1 ==> v.dirty || v.lastOk)
    && v.starts + (if v.dirty then 1 else 0) + v.holding <= v.calls
  }

  function Tokens(v: KeyView): int {
    v.holding + v.patching + v.recovering + v.finishing
  }

  lemma KeyInvStep(v: KeyView, e: KeyEvent)
    requires KeyInv(v) && KeyEnabled(v, e)
    ensures KeyInv(KeyNext(v, e))
  {
  }

  ghost predicate Inv(s: State) {
    WQ.Valid(s.cache.tasks) && TwinIndex(s.cache) && forall k :: KeyInv(ViewOf(s, k))
  }

  lemma QueueStaysValid(s: State, a: Action)
    requires Enabled(s, a) && Inv(s)
    ensures WQ.Valid(Next(s, a).cache.tasks)
  {
    match a {
      case CallUnSuspend(k) => WQ.AddValid(s.cache.tasks, k);
      case WorkerGet => WQ.GetValid(s.cache.tasks);
      case MarkDone(k) =>
        assert KeyInv(ViewOf(s, k));
        WQ.DoneValid(s.cache.tasks, k);
      case _ =>
    }
  }

  lemma TwinIndexStays(s: State, a: Action)
    requires Enabled(s, a) && TwinIndex(s.cache)
    ensures TwinIndex(Next(s, a).cache)
  {
    match a {
      case TakeSnapshot => SnapshotKeepsTwinIndex(s.cache);
      case CallUnSuspend(k) => StatusKeepsTwinIndex(s.cache, k, UnSuspending);
      case RecoverStatus(k) => StatusKeepsTwinIndex(s.cache, k, Suspended);
      case SetBinding(rb, w) => SetKeepsTwinIndex(s.cache, rb, w);
      case DeleteBinding(k) => DeleteKeepsTwinIndex(s.cache, k);
      case _ =>
    }
  }

  lemma InvStep(s: State, a: Action)
    requires Inv(s) && Enabled(s, a)
    ensures Inv(Next(s, a))
  {
    QueueStaysValid(s, a);
    TwinIndexStays(s, a);
    forall k ensures KeyInv(ViewOf(Next(s, a), k)) {
      ViewStep(s, a, k);
      KeyInvStep(ViewOf(s, k), EventFor(s, a, k));
    }
  }

  lemma {:induction false} InvAlong(s: State, actions: seq<Action>)
    requires Inv(s) && Legal(s, actions)
    ensures Inv(Exec(s, actions))
    decreases |actions|
  {
    if actions != [] {
      InvStep(s, actions[0]);
      InvAlong(Next(s, actions[0]), actions[1..]);
    }
  }

  /** In every reachable state, with arbitrary deletes, re-adds and updates: no unsuspend
      request is lost (a binding marked unsuspending is still queued or handed out, or its
      latest patch succeeded), no key has two patches in flight, patches started plus the
      pending mark never exceed the calls, and the two indexes agree. */
  lemma ProtocolSafety(s: State, actions: seq<Action>, k: Key)
    requires Init(s) && Legal(s, actions)
    ensures var t := Exec(s, actions);
            && (IsUnSuspending(t, k) ==>
                  k in t.cache.tasks.dirty || k in t.cache.tasks.processing || LastSucceeded(t, k))
            && t.procs[Patching(k)] <= 1
            && Count(t.starts, k) + (if k in t.cache.tasks.dirty then 1 else 0) <= Count(t.calls, k)
            && TwinIndex(t.cache)
  {
    assert Inv(s);
    InvAlong(s, actions);
    assert KeyInv(ViewOf(Exec(s, actions), k));
  }

  // ----- requests the cache no longer shows -----

  function Outstanding(v: KeyView): int {
    One(v.dirty) + v.holding + v.patching
  }

  /** A patch is still to be answered, but the cached binding is not marked unsuspending. */
  predicate Hidden(v: KeyView) {
    v.cached && !v.unsuspending && Outstanding(v) > 0
  }

  /** A request becomes hidden in exactly two ways: an update (or a re-added binding of the same
      name) overwrites the status while the patch is outstanding, or a failed patch puts the
      status back after the key was asked for again. */
  lemma HiddenExactly(s: State, a: Action, k: Key)
    requires Inv(s) && Enabled(s, a) && !Hidden(ViewOf(s, k))
    ensures var e, v := EventFor(s, a, k), ViewOf(s, k);
            Hidden(ViewOf(Next(s, a), k)) <==>
              (e.Stored? && Outstanding(v) > 0) || (e.PutBack? && v.cached && v.dirty)
  {
    assert KeyInv(ViewOf(s, k));
    ViewStep(s, a, k);
    HiddenKeyExactly(ViewOf(s, k), EventFor(s, a, k));
  }

  lemma HiddenKeyExactly(v: KeyView, e: KeyEvent)
    requires KeyInv(v) && KeyEnabled(v, e) && !Hidden(v)
    ensures Hidden(KeyNext(v, e)) <==> (e.Stored? && Outstanding(v) > 0) || (e.PutBack? && v.cached && v.dirty)
  {
  }

  // ----- dropped keys -----

  /** Handed out, but nobody is going to call Done for it. */
  predicate Dropped(v: KeyView) {
    v.processing && Tokens(v) == 0
  }

  /** A key is dropped exactly when a worker does not find it in the cache. */
  lemma DroppedExactlyOnMiss(s: State, a: Action, k: Key)
    requires Inv(s) && Enabled(s, a) && !Dropped(ViewOf(s, k))
    ensures Dropped(ViewOf(Next(s, a), k)) <==> a == WorkerLookup(k) && k !in s.cache.infos
  {
    assert KeyInv(ViewOf(s, k));
    ViewStep(s, a, k);
    EventKinds(s, a, k);
    DroppedKeyExactly(ViewOf(s, k), EventFor(s, a, k));
  }

  lemma DroppedKeyExactly(v: KeyView, e: KeyEvent)
    requires KeyInv(v) && KeyEnabled(v, e) && !Dropped(v)
    ensures Dropped(KeyNext(v, e)) <==> e.LookedUp? && !v.cached
  {
  }

  lemma DroppedKeyStep(v: KeyView, e: KeyEvent)
    requires KeyInv(v) && KeyEnabled(v, e) && Dropped(v)
    ensures Dropped(KeyNext(v, e)) && KeyNext(v, e).starts == v.starts
  {
  }

  lemma DroppedStep(s: State, a: Action, k: Key)
    requires Inv(s) && Enabled(s, a) && Dropped(ViewOf(s, k))
    ensures Dropped(ViewOf(Next(s, a), k)) && ViewOf(Next(s, a), k).starts == ViewOf(s, k).starts
  {
    ViewStep(s, a, k);
    DroppedKeyStep(ViewOf(s, k), EventFor(s, a, k));
  }

  /** A dropped key stays dropped, and no run ever patches it again, however often it is
      asked for. */
  lemma {:induction false} DroppedForever(s: State, actions: seq<Action>, k: Key)
    requires Inv(s) && Legal(s, actions) && Dropped(ViewOf(s, k))
    ensures Dropped(ViewOf(Exec(s, actions), k))
    ensures ViewOf(Exec(s, actions), k).starts == ViewOf(s, k).starts
    decreases |actions|
  {
    if actions != [] {
      DroppedStep(s, actions[0], k);
      InvStep(s, actions[0]);
      DroppedForever(Next(s, actions[0]), actions[1..], k);
    }
  }

  /** When all work is finished and no key was dropped, every binding still marked unsuspending
      had its latest patch succeed. */
  lemma QuiescentMeansPatched(s: State, k: Key)
    requires Inv(s) && s.cache.tasks.queue == [] && s.procs == multiset{} && IsUnSuspending(s, k)
    ensures LastSucceeded(s, k) || Dropped(ViewOf(s, k))
  {
    assert KeyInv(ViewOf(s, k));
    assert k !in s.cache.tasks.queue;
  }
}
