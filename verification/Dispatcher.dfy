/** The dispatcher thread: it opens a session on a snapshot of the cache, collects the suspended
    bindings into priority queues, and visits them round-robin. */
module Dispatchers {
  import opened Resources
  import opened Api
  import opened Sorting
  import opened Orders
  import opened Rounds
  import opened Sessions
  import opened Outcomes
  import opened Records
  import opened CacheModel
  import opened RoundRobinLoop
  import opened Capacity
  import opened DispatcherCaches
  import P = Protocol

  // ----- collecting -----

  ghost function PendingSeen(ss: Snapshot, q: string, seen: set<UID>): set<ResourceBindingInfo> {
    set u |
      u in ss.infos && u in seen && ss.infos[u].status == Suspended && Resolve(ss, ss.infos[u]) == q :: ss.infos[u]
  }

  lemma PendingSeenNext(ss: Snapshot, q: string, seen: set<UID>, u: UID)
    requires u in ss.infos
    ensures PendingSeen(ss, q, seen + {u})
         == PendingSeen(ss, q, seen)
            + if ss.infos[u].status == Suspended && Resolve(ss, ss.infos[u]) == q then {ss.infos[u]} else {}
  {
  }

  lemma NotSeenYet(ss: Snapshot, q: string, seen: set<UID>, u: UID)
    requires ValidSnapshot(ss) && u in ss.infos && u !in seen
    ensures ss.infos[u] !in PendingSeen(ss, q, seen)
  {
  }

  /** The priority queue of one Volcano queue holds what was seen of its bindings; there is none
      for a queue that does not exist or has nothing pending. */
  ghost predicate Collected(ss: Snapshot, left: map<string, set<ResourceBindingInfo>>, seen: set<UID>, q: string) {
    && (q in left <==> q in ss.queues && PendingSeen(ss, q, seen) != {})
    && (q in left ==> left[q] == PendingSeen(ss, q, seen))
  }

  ghost predicate AllCollected(ss: Snapshot, left: map<string, set<ResourceBindingInfo>>, seen: set<UID>) {
    forall q :: Collected(ss, left, seen, q)
  }

  ghost function QueuesOf(ss: Snapshot, left: map<string, set<ResourceBindingInfo>>): set<QueueInfo> {
    set q | q in left && q in ss.queues :: ss.queues[q]
  }

  method CollectOne(ss: Snapshot, u: UID, queues: set<QueueInfo>, left: map<string, set<ResourceBindingInfo>>,
                    ghost seen: set<UID>)
    returns (queues': set<QueueInfo>, left': map<string, set<ResourceBindingInfo>>)
    requires ValidSnapshot(ss) && u in ss.infos && u !in seen
    requires AllCollected(ss, left, seen) && queues == QueuesOf(ss, left)
    ensures AllCollected(ss, left', seen + {u}) && queues' == QueuesOf(ss, left')
  {
    queues', left' := queues, left;
    var rbi := ss.infos[u];
    var name := Resolve(ss, rbi);
    assert Collected(ss, left, seen, name);
    NotSeenYet(ss, name, seen, u);
    if rbi.status == Suspended {
      if name in left {
        left' := left[name := Push(left[name], rbi)];
      } else if name in ss.queues {
        left' := left[name := Push({}, rbi)];
        NewQueue(ss, left, name);
        queues' := Push(queues, ss.queues[name]);
      }
    }
    forall q ensures Collected(ss, left', seen + {u}, q) {
      assert Collected(ss, left, seen, q);
      PendingSeenNext(ss, q, seen, u);
    }
    assert queues' == QueuesOf(ss, left');
  }

  lemma NewQueue(ss: Snapshot, left: map<string, set<ResourceBindingInfo>>, q: string)
    requires ValidSnapshot(ss) && q in ss.queues && q !in left
    ensures ss.queues[q] !in QueuesOf(ss, left)
  {
  }

  /** Whatever order the bindings come in, the priority queues end up with the pending ones. */
  method Collect(ss: Snapshot) returns (queues: set<QueueInfo>, left: map<string, set<ResourceBindingInfo>>)
    requires ValidSnapshot(ss)
    ensures queues == ActiveQueues(ss)
    ensures left.Keys == set q | q in ss.queues && Pending(ss, q) != {}
    ensures forall q | q in left :: left[q] == Pending(ss, q)
  {
    queues, left := {}, map[];
    var todo := ss.infos.Keys;
    ghost var seen: set<UID> := {};
    while todo != {}
      invariant todo + seen == ss.infos.Keys && todo !! seen
      invariant AllCollected(ss, left, seen) && queues == QueuesOf(ss, left)
      decreases todo
    {
      var u :| u in todo;
      queues, left := CollectOne(ss, u, queues, left, seen);
      todo, seen := todo - {u}, seen + {u};
    }
    forall q
      ensures (q in left <==> q in ss.queues && Pending(ss, q) != {}) && (q in left ==> left[q] == Pending(ss, q))
    {
      assert seen == ss.infos.Keys && Collected(ss, left, seen, q);
      assert PendingSeen(ss, q, seen) == Pending(ss, q);
    }
  }

  // ----- a session and one try -----

  /** The session's objects: the snapshot's records, which it owns, and its capacity plugin. */
  class Session {
    const snapshot: DispatcherCacheSnapshot
    const capacity: CapacityPlugin
    ghost const ss: Snapshot
    ghost const own: set<Info>

    constructor (snapshot: DispatcherCacheSnapshot, capacity: CapacityPlugin, ghost ss: Snapshot, ghost own: set<Info>)
      ensures this.snapshot == snapshot && this.capacity == capacity && this.ss == ss && this.own == own
    {
      this.snapshot, this.capacity, this.ss, this.own := snapshot, capacity, ss, own;
    }

    ghost predicate RecordsShow(infos: map<UID, ResourceBindingInfo>)
      reads own
    {
      Copies(snapshot.resourceBindingInfos, own, infos) && forall u | u in infos :: infos[u].rb.uid == u
    }

    ghost predicate PluginAt(alloc: map<string, Resource>)
      reads capacity, capacity.attrs
    {
      capacity.Valid() && capacity.SharesExact() && capacity.LimitsAre(ss) && capacity.Allocated() == alloc
    }

    /** Mark the session's own copy. */
    method MarkUnSuspending(u: UID, ghost infos: map<UID, ResourceBindingInfo>)
      requires RecordsShow(infos) && u in infos && u in snapshot.resourceBindingInfos
      modifies own
      ensures RecordsShow(infos[u := infos[u].(status := UnSuspending)])
    {
      assert Copy(snapshot.resourceBindingInfos, own, infos, u);
      var rbi := snapshot.resourceBindingInfos[u];
      rbi.status := UnSuspending;
      ghost var after := infos[u := infos[u].(status := UnSuspending)];
      forall v ensures Copy(snapshot.resourceBindingInfos, own, after, v) {
        assert old(Copy(snapshot.resourceBindingInfos, own, infos, v));
      }
    }
  }

  // ----- what the cache has been through -----

  ghost function RequestsIn(log: seq<P.Action>): seq<Key> {
    if log == [] then []
    else
      var a := log[|log| - 1];
      RequestsIn(log[..|log| - 1]) + if a.CallUnSuspend? then [a.key] else []
  }

  ghost function OthersIn(log: seq<P.Action>): seq<P.Action> {
    if log == [] then []
    else
      var a := log[|log| - 1];
      OthersIn(log[..|log| - 1]) + if a.CallUnSuspend? then [] else [a]
  }

  /** The cache when the session opened, and what others have done to it since. */
  datatype Story = Story(start: CacheState, others: seq<P.Action>)

  ghost predicate StepAt(log: seq<P.Action>, states: seq<CacheState>, i: nat) {
    i < |log| && i + 1 < |states| ==> states[i + 1] == Effect(states[i], log[i])
  }

  /** The sections of the log, one after the other, lead through these states. */
  ghost predicate Replays(log: seq<P.Action>, states: seq<CacheState>) {
    |states| == |log| + 1 && forall i :: StepAt(log, states, i)
  }

  /** One order of the session's requests and what the others did that leads to this cache. */
  ghost predicate Tells(story: Story, asked: seq<Key>, log: seq<P.Action>, states: seq<CacheState>, c: CacheState) {
    && Replays(log, states) && states[0] == story.start && states[|log|] == c
    && RequestsIn(log) == asked && OthersIn(log) == story.others
  }

  ghost predicate Possible(story: Story, asked: seq<Key>, c: CacheState) {
    exists log, states :: Tells(story, asked, log, states, c)
  }

  lemma LogNext(log: seq<P.Action>, a: P.Action)
    ensures RequestsIn(log + [a]) == RequestsIn(log) + if a.CallUnSuspend? then [a.key] else []
    ensures OthersIn(log + [a]) == OthersIn(log) + if a.CallUnSuspend? then [] else [a]
  {
    assert (log + [a])[..|log|] == log;
  }

  lemma ReplayNext(log: seq<P.Action>, states: seq<CacheState>, a: P.Action)
    requires Replays(log, states)
    ensures Replays(log + [a], states + [Effect(states[|log|], a)])
  {
    forall i: nat ensures StepAt(log + [a], states + [Effect(states[|log|], a)], i) {
      assert StepAt(log, states, i);
    }
  }

  lemma NothingYet(c: CacheState)
    ensures Possible(Story(c, []), [], c)
  {
    assert Tells(Story(c, []), [], [], [c], c);
  }

  lemma RequestPossible(story: Story, asked: seq<Key>, c: CacheState, k: Key)
    requires Possible(story, asked, c)
    ensures Possible(story, asked + [k], UnSuspend(c, k))
  {
    var log, states :| Tells(story, asked, log, states, c);
    var a := P.CallUnSuspend(k);
    LogNext(log, a);
    ReplayNext(log, states, a);
    assert Tells(story, asked + [k], log + [a], states + [Effect(c, a)], UnSuspend(c, k));
  }

  lemma OtherPossible(story: Story, asked: seq<Key>, c: CacheState, a: P.Action)
    requires Possible(story, asked, c) && ByOthers(a)
    ensures Possible(story.(others := story.others + [a]), asked, Effect(c, a))
  {
    var log, states :| Tells(story, asked, log, states, c);
    LogNext(log, a);
    ReplayNext(log, states, a);
    assert Tells(story.(others := story.others + [a]), asked, log + [a], states + [Effect(c, a)], Effect(c, a));
  }

  lemma {:induction false} UndisturbedLog(log: seq<P.Action>, states: seq<CacheState>)
    requires Replays(log, states) && OthersIn(log) == []
    ensures states[|log|] == UnSuspendAll(states[0], RequestsIn(log))
    decreases |log|
  {
    if log != [] {
      var init, a := log[..|log| - 1], log[|log| - 1];
      var before := states[..|log|];
      forall i: nat ensures StepAt(init, before, i) {
        assert StepAt(log, states, i);
      }
      UndisturbedLog(init, before);
      assert StepAt(log, states, |log| - 1);
      assert RequestsIn(log) == RequestsIn(init) + [a.key];
      assert RequestsIn(log)[..|RequestsIn(init)|] == RequestsIn(init);
    }
  }

  /** With nobody else acting, the requests were made one after the other. */
  lemma Undisturbed(start: CacheState, asked: seq<Key>, c: CacheState)
    requires Possible(Story(start, []), asked, c)
    ensures c == UnSuspendAll(start, asked)
  {
    var log, states :| Tells(Story(start, []), asked, log, states, c);
    UndisturbedLog(log, states);
  }

  /** Since the session opened, the cache has had exactly these unsuspend requests, in this order, and
      what the others did, in theirs. */
  ghost predicate Told(cache: DispatcherCache, story: Story, asked: seq<Key>)
    reads cache, cache.records
  {
    cache.Valid() && Possible(story, asked, cache.Contents())
  }

  /** The session's records and the cache after these decisions. */
  ghost predicate Decided(ssn: Session, cache: DispatcherCache, story: Story,
                          infos: map<UID, ResourceBindingInfo>, done: seq<QueueTry>)
    reads ssn.own, cache, cache.records
  {
    ssn.own !! cache.records && ssn.RecordsShow(infos) && Told(cache, story, Keys(done))
  }

  /** Plugin, records and cache are where the session's meaning says they are. */
  ghost predicate InStep(ssn: Session, cache: DispatcherCache, story: Story, st: SessionState)
    reads ssn.capacity, ssn.capacity.attrs, ssn.own, cache, cache.records
  {
    ssn.PluginAt(st.alloc) && Decided(ssn, cache, story, st.infos, st.dispatched)
  }

  lemma KeysNext(done: seq<QueueTry>, t: QueueTry)
    ensures Keys(done + [t]) == Keys(done) + [t.binding.rb.key]
  {
  }

  /** Marking the copy and telling the cache. */
  method UnSuspendBoth(ssn: Session, cache: DispatcherCache, rbi: ResourceBindingInfo,
                       ghost story: Story, ghost infos: map<UID, ResourceBindingInfo>, ghost done: seq<QueueTry>,
                       ghost t: QueueTry)
    requires Decided(ssn, cache, story, infos, done)
    requires t.binding == rbi && rbi.rb.uid in infos && infos[rbi.rb.uid] == rbi
    modifies ssn.own, cache`unSuspendRBTaskQueue, cache`infos, cache.records
    ensures Decided(ssn, cache, story, infos[rbi.rb.uid := rbi.(status := UnSuspending)], done + [t])
  {
    assert Copy(ssn.snapshot.resourceBindingInfos, ssn.own, infos, rbi.rb.uid);
    ssn.MarkUnSuspending(rbi.rb.uid, infos);
    KeysNext(done, t);
    RequestPossible(story, Keys(done), cache.Contents(), rbi.rb.key);
    cache.UnSuspendResourceBinding(rbi.rb.key);
  }

  method UnSuspendOnly(ssn: Session, cache: DispatcherCache, rbi: ResourceBindingInfo,
                       ghost story: Story, ghost st: SessionState, ghost alloc: map<string, Resource>,
                       ghost t: QueueTry)
    requires ssn.PluginAt(alloc) && Decided(ssn, cache, story, st.infos, st.dispatched)
    requires t.binding == rbi && rbi.rb.uid in st.infos && st.infos[rbi.rb.uid] == rbi
    modifies ssn.own, cache`unSuspendRBTaskQueue, cache`infos, cache.records
    ensures InStep(ssn, cache, story,
                   SessionState(alloc, st.infos[rbi.rb.uid := rbi.(status := UnSuspending)], st.dispatched + [t]))
  {
    UnSuspendBoth(ssn, cache, rbi, story, st.infos, st.dispatched, t);
  }

  lemma TryStays(ss: Snapshot, st: SessionState, t: QueueTry)
    requires t.queue.uid in st.alloc
    requires !Fits(st.alloc[t.queue.uid], Limit(ss, t.queue), Request(t.binding)) || !Allocates(st.alloc, t.binding).1
    ensures TryBinding(ss, st, t) == st
  {
  }

  lemma TryMoves(ss: Snapshot, st: SessionState, t: QueueTry)
    requires t.queue.uid in st.alloc
    requires Fits(st.alloc[t.queue.uid], Limit(ss, t.queue), Request(t.binding)) && Allocates(st.alloc, t.binding).1
    ensures TryBinding(ss, st, t)
         == SessionState(Allocates(st.alloc, t.binding).0,
                         st.infos[t.binding.rb.uid := t.binding.(status := UnSuspending)],
                         st.dispatched + [t])
  {
  }

  /** Asking the plugin. */
  method Allocatable(ssn: Session, queue: QueueInfo, rbi: ResourceBindingInfo, ghost alloc: map<string, Resource>)
    returns (r: bool)
    requires ssn.PluginAt(alloc)
    requires queue.uid in alloc && queue.uid in ssn.ss.queues && ssn.ss.queues[queue.uid] == queue
    ensures r == Fits(alloc[queue.uid], Limit(ssn.ss, queue), Request(rbi))
  {
    assert queue.uid in ssn.capacity.Allocated() && ssn.capacity.LimitIs(ssn.ss, queue.uid);
    r := ssn.capacity.AllocatableFunc(queue, rbi);
  }

  /** Allocate, and roll back when that fails. */
  method AllocateOrRollBack(ssn: Session, rbi: ResourceBindingInfo, ghost alloc: map<string, Resource>)
    returns (ok: bool)
    requires ssn.PluginAt(alloc)
    modifies ssn.capacity.attrs
    ensures ok == Allocates(alloc, rbi).1
    ensures ssn.PluginAt(if ok then Allocates(alloc, rbi).0 else Deallocates(Allocates(alloc, rbi).0, rbi).0)
  {
    ok := ssn.capacity.AllocateFunc(rbi);
    if !ok {
      var rolledBack := ssn.capacity.DeallocateFunc(rbi);
    }
  }

  method AllocateOnly(ssn: Session, cache: DispatcherCache, rbi: ResourceBindingInfo, ghost story: Story,
                      ghost st: SessionState)
    returns (ok: bool)
    requires InStep(ssn, cache, story, st)
    modifies ssn.capacity.attrs
    ensures ok == Allocates(st.alloc, rbi).1
    ensures ssn.PluginAt(if ok then Allocates(st.alloc, rbi).0 else st.alloc)
    ensures Decided(ssn, cache, story, st.infos, st.dispatched)
  {
    ok := AllocateOrRollBack(ssn, rbi, st.alloc);
  }

  /** The branch of a binding that fits: allocate, then unsuspend. */
  method Take(ssn: Session, cache: DispatcherCache, queue: QueueInfo, rbi: ResourceBindingInfo,
              ghost story: Story, ghost st: SessionState)
    requires InStep(ssn, cache, story, st)
    requires queue.uid in st.alloc && Fits(st.alloc[queue.uid], Limit(ssn.ss, queue), Request(rbi))
    requires rbi.rb.uid in st.infos && st.infos[rbi.rb.uid] == rbi
    modifies ssn.capacity.attrs, ssn.own, cache`unSuspendRBTaskQueue, cache`infos, cache.records
    ensures InStep(ssn, cache, story, TryBinding(ssn.ss, st, Try(queue, rbi)))
  {
    var ok := AllocateOnly(ssn, cache, rbi, story, st);
    if ok {
      TryMoves(ssn.ss, st, Try(queue, rbi));
      UnSuspendOnly(ssn, cache, rbi, story, st, Allocates(st.alloc, rbi).0, Try(queue, rbi));
    } else {
      TryStays(ssn.ss, st, Try(queue, rbi));
    }
  }

  /** One try of the loop: capacity check, allocate, then roll back or unsuspend. */
  method TryDispatch(ssn: Session, cache: DispatcherCache, queue: QueueInfo, rbi: ResourceBindingInfo,
                     ghost story: Story, ghost st: SessionState)
    requires InStep(ssn, cache, story, st)
    requires queue.uid in st.alloc && queue.uid in ssn.ss.queues && ssn.ss.queues[queue.uid] == queue
    requires rbi.rb.uid in st.infos && st.infos[rbi.rb.uid] == rbi
    modifies ssn.capacity.attrs, ssn.own, cache`unSuspendRBTaskQueue, cache`infos, cache.records
    ensures InStep(ssn, cache, story, TryBinding(ssn.ss, st, Try(queue, rbi)))
  {
    var allocatable := Allocatable(ssn, queue, rbi, st.alloc);
    if allocatable {
      Take(ssn, cache, queue, rbi, story, st);
    } else {
      TryStays(ssn.ss, st, Try(queue, rbi));
    }
  }

  // ----- the loop -----

  lemma SetupHolds(ss: Snapshot)
    requires ValidSnapshot(ss)
    ensures Holds(QueueLess, ActiveQueues(ss), QueueOrder(ss)) && Setup(QueueOrder(ss))
  {
    var active := ActiveQueues(ss);
    QueueLessStrictTotal(active);
    SortAscends(QueueLess, active);
    AscendingDistinct(QueueLess, active);
    SortMembers(QueueLess, active);
    assert Elements(QueueOrder(ss)) == active;
  }

  lemma ListHolds(ss: Snapshot, q: QueueInfo, left: map<string, set<ResourceBindingInfo>>)
    requires ValidSnapshot(ss) && q in ActiveQueues(ss) && q.name in left && left[q.name] == Pending(ss, q.name)
    ensures List(BindingLists(ss), q) != [] && HoldsRest(BindingLists(ss), left, q, 0)
  {
    BindingLessStrictTotal(Pending(ss, q.name));
    var l := BindingOrder(ss, q.name);
    assert List(BindingLists(ss), q) == l && |l| == |Pending(ss, q.name)|;
    assert Drop(l, 0) == l;
  }

  /** What was collected is where the loop starts. */
  lemma CollectedIsStart(ss: Snapshot, queues: set<QueueInfo>, left: map<string, set<ResourceBindingInfo>>)
    requires ValidSnapshot(ss) && queues == ActiveQueues(ss)
    requires left.Keys == set q | q in ss.queues && Pending(ss, q) != {}
    requires forall q | q in left :: left[q] == Pending(ss, q)
    ensures Setup(QueueOrder(ss))
    ensures Looping(QueueOrder(ss), BindingLists(ss), queues, {}, left, [])
  {
    SetupHolds(ss);
    forall q | q in QueueOrder(ss) ensures List(BindingLists(ss), q) != [] && HoldsRest(BindingLists(ss), left, q, 0) {
      QueueOrderMembers(ss, q);
      ListHolds(ss, q, left);
    }
    LoopStarts(QueueOrder(ss), BindingLists(ss), queues, left);
  }

  /** The states a session goes through along its tries. */
  ghost function States(ss: Snapshot, ts: seq<QueueTry>): (r: seq<SessionState>)
    ensures |r| == |ts| + 1
  {
    seq(|ts| + 1, n requires 0 <= n <= |ts| => Run(ss, ts[..n]))
  }

  /** At try n the binding and its queue are ready, and the try leads to the next state. */
  ghost predicate Leads(ss: Snapshot, ts: seq<QueueTry>, states: seq<SessionState>, n: nat) {
    n < |ts| && n + 1 < |states| ==>
      var st, t := states[n], ts[n];
      && t.queue.uid in st.alloc && t.queue.uid in ss.queues && ss.queues[t.queue.uid] == t.queue
      && t.binding.rb.uid in st.infos && st.infos[t.binding.rb.uid] == t.binding
      && states[n + 1] == TryBinding(ss, st, t)
  }

  lemma StatesLead(ss: Snapshot, ts: seq<QueueTry>, n: nat)
    requires ValidSnapshot(ss) && Sound(ss, ts)
    ensures Leads(ss, ts, States(ss, ts), n)
  {
    if n < |ts| {
      var tried, t := ts[..n], ts[n];
      SoundPrefix(ss, ts, n + 1);
      assert ts[..n + 1] == tried + [t];
      TurnIsReady(ss, tried, t);
      SoundInit(ss, tried + [t]);
      assert (tried + [t])[..n] == tried;
    }
  }

  /** What the loop is going to do: the tries in order, the points of the loop before and after
      them, and the states they lead through. */
  datatype Plan = Plan(ts: seq<QueueTry>, points: seq<Point>, states: seq<SessionState>)

  ghost predicate PlanOk(ss: Snapshot, plan: Plan) {
    && Course(plan.points, plan.ts) && |plan.states| == |plan.ts| + 1
    && forall n :: Leads(ss, plan.ts, plan.states, n)
  }

  /** Before try n: plugin, records and cache are where the plan has them. */
  ghost predicate Underway(ssn: Session, cache: DispatcherCache, story: Story, plan: Plan, n: nat)
    reads ssn.capacity, ssn.capacity.attrs, ssn.own, cache, cache.records
  {
    PlanOk(ssn.ss, plan) && n <= |plan.ts| && InStep(ssn, cache, story, plan.states[n])
  }

  /** One iteration of the loop, from popping a queue to putting it back. */
  method Turn(ssn: Session, cache: DispatcherCache, p: Point, ghost story: Story, ghost plan: Plan, ghost n: nat)
    returns (p': Point)
    requires Underway(ssn, cache, story, plan, n) && n < |plan.ts| && p == Swapped(plan.points[n])
    modifies ssn.capacity.attrs, ssn.own, cache`unSuspendRBTaskQueue, cache`infos, cache.records
    ensures Underway(ssn, cache, story, plan, n + 1) && p' == plan.points[n + 1]
  {
    assert PointAt(plan.points, plan.ts, n) && Leads(ssn.ss, plan.ts, plan.states, n);
    var (queue, others) := Pop(QueueLess, p.queues);
    if queue.name !in p.left || p.left[queue.name] == {} {
      assert false;
    }
    var (rbi, rest) := Pop(BindingLess, p.left[queue.name]);
    TryDispatch(ssn, cache, queue, rbi, story, plan.states[n]);
    p' := Point(others, p.rounded, p.left[queue.name := rest]);
    if rest != {} {
      p' := p'.(rounded := Push(p.rounded, queue));
    }
  }

  /** While there is something to try, one of the two queues of queues is not empty; and then only. */
  lemma MoreToTry(ss: Snapshot, plan: Plan, n: nat)
    requires PlanOk(ss, plan) && n <= |plan.ts|
    ensures n < |plan.ts| <==> plan.points[n].queues != {} || plan.points[n].rounded != {}
  {
    assert PointAt(plan.points, plan.ts, n);
  }

  // ----- the others -----

  /** What others do before each of the tries. */
  type Schedule = seq<seq<P.Action>>

  ghost predicate OthersOnly(others: Schedule) {
    forall n | 0 <= n < |others| :: forall a | a in others[n] :: ByOthers(a)
  }

  function Before(others: Schedule, n: nat): seq<P.Action> {
    if n < |others| then others[n] else []
  }

  ghost function Upto(others: Schedule, n: nat): seq<P.Action> {
    if n == 0 then [] else Upto(others, n - 1) + Before(others, n - 1)
  }

  /** Others at work on the cache: their sections, one after the other. */
  method OthersAct(cache: DispatcherCache, actions: seq<P.Action>, ghost story: Story, ghost asked: seq<Key>)
    requires Told(cache, story, asked) && forall a | a in actions :: ByOthers(a)
    modifies cache, cache.records
    ensures Told(cache, story.(others := story.others + actions), asked) && fresh(cache.records - old(cache.records))
  {
    var i := 0;
    assert story.others + actions[..0] == story.others;
    while i < |actions|
      invariant 0 <= i <= |actions|
      invariant Told(cache, story.(others := story.others + actions[..i]), asked)
      invariant fresh(cache.records - old(cache.records))
    {
      OtherPossible(story.(others := story.others + actions[..i]), asked, cache.Contents(), actions[i]);
      assert story.others + actions[..i + 1] == story.others + actions[..i] + [actions[i]];
      cache.Act(actions[i]);
      i := i + 1;
    }
    assert actions[..|actions|] == actions;
  }

  /** They do not touch what the session owns. */
  method Interrupt(ssn: Session, cache: DispatcherCache, actions: seq<P.Action>, ghost story: Story,
                   ghost st: SessionState)
    requires InStep(ssn, cache, story, st) && forall a | a in actions :: ByOthers(a)
    modifies cache, cache.records
    ensures InStep(ssn, cache, story.(others := story.others + actions), st)
    ensures fresh(cache.records - old(cache.records))
  {
    OthersAct(cache, actions, story, Keys(st.dispatched));
  }

  /** Others first, then one iteration. */
  method InterruptedTurn(ssn: Session, cache: DispatcherCache, others: Schedule, p: Point,
                         ghost start: CacheState, ghost plan: Plan, n: nat)
    returns (p': Point, ghost added: set<Info>)
    requires OthersOnly(others) && Underway(ssn, cache, Story(start, Upto(others, n)), plan, n)
    requires n < |plan.ts| && p == Swapped(plan.points[n])
    modifies ssn.capacity.attrs, ssn.own, cache, cache.records
    ensures fresh(added) && cache.records <= old(cache.records) + added
    ensures Underway(ssn, cache, Story(start, Upto(others, n + 1)), plan, n + 1) && p' == plan.points[n + 1]
  {
    Interrupt(ssn, cache, Before(others, n), Story(start, Upto(others, n)), plan.states[n]);
    p' := Turn(ssn, cache, p, Story(start, Upto(others, n + 1)), plan, n);
    added := cache.records - old(cache.records);
  }

  /** The loop over the two swapped queues of queues. */
  method VisitRoundRobin(ssn: Session, cache: DispatcherCache, others: Schedule, queues: set<QueueInfo>,
                         left: map<string, set<ResourceBindingInfo>>, ghost start: CacheState, ghost plan: Plan)
    requires OthersOnly(others) && Underway(ssn, cache, Story(start, []), plan, 0)
    requires plan.points[0] == Point(queues, {}, left)
    modifies ssn.capacity.attrs, ssn.own, cache, cache.records
    ensures |plan.states| == |plan.ts| + 1
    ensures InStep(ssn, cache, Story(start, Upto(others, |plan.ts|)), plan.states[|plan.ts|])
  {
    var n: nat, p := 0, Point(queues, {}, left);
    ghost var added: set<Info> := {};
    while true
      invariant Underway(ssn, cache, Story(start, Upto(others, n)), plan, n) && p == plan.points[n]
      invariant fresh(added) && cache.records <= old(cache.records) + added
      decreases |plan.ts| - n
    {
      MoreToTry(ssn.ss, plan, n);
      if p.queues == {} {
        if p.rounded == {} {
          break;
        }
        p := Point(p.rounded, p.queues, p.left);
      }
      ghost var more;
      p, more := InterruptedTurn(ssn, cache, others, p, start, plan, n);
      n, added := n + 1, added + more;
    }
  }

  lemma StatesEnds(ss: Snapshot, ts: seq<QueueTry>)
    ensures States(ss, ts)[0] == Open(ss) && States(ss, ts)[|ts|] == Run(ss, ts)
  {
    assert ts[..0] == [] && ts[..|ts|] == ts;
  }

  /** The plan of a session, once its bindings are collected. */
  lemma SessionPlan(ss: Snapshot, queues: set<QueueInfo>, left: map<string, set<ResourceBindingInfo>>)
    returns (plan: Plan)
    requires ValidSnapshot(ss) && queues == ActiveQueues(ss)
    requires left.Keys == set q | q in ss.queues && Pending(ss, q) != {}
    requires forall q | q in left :: left[q] == Pending(ss, q)
    ensures PlanOk(ss, plan) && plan.points[0] == Point(queues, {}, left) && plan.ts == Tries(ss)
    ensures plan.states[0] == Open(ss) && plan.states[|plan.ts|] == Outcome(ss)
  {
    var ts := Tries(ss);
    CollectedIsStart(ss, queues, left);
    var points := CourseOfVisit(QueueOrder(ss), BindingLists(ss), queues, left, ts);
    plan := Plan(ts, points, States(ss, ts));
    assert Sound(ss, ts) by { TriesAreSound(ss); }
    forall n: nat ensures Leads(ss, ts, plan.states, n) {
      StatesLead(ss, ts, n);
    }
    StatesEnds(ss, ts);
  }

  method CollectFor(ssn: Session, cache: DispatcherCache, ghost story: Story, ghost st: SessionState)
    returns (queues: set<QueueInfo>, left: map<string, set<ResourceBindingInfo>>)
    requires ValidSnapshot(ssn.ss) && ssn.snapshot.Value() == ssn.ss && InStep(ssn, cache, story, st)
    ensures queues == ActiveQueues(ssn.ss)
    ensures left.Keys == set q | q in ssn.ss.queues && Pending(ssn.ss, q) != {}
    ensures forall q | q in left :: left[q] == Pending(ssn.ss, q)
    ensures InStep(ssn, cache, story, st)
  {
    queues, left := Collect(ssn.snapshot.Value());
  }

  /** The dispatch of a session, with others at work on the cache between the tries: the bindings
      are visited exactly as the round-robin of sorted lists says, nothing is looked up that is not
      there, the loop ends, and plugin and records end as the session's meaning says. Whatever the
      others did, the cache has had the session's decisions as its requests, in order. */
  method Dispatch(ssn: Session, cache: DispatcherCache, others: Schedule, ghost start: CacheState)
    requires OthersOnly(others) && ValidSnapshot(ssn.ss) && ssn.snapshot.Value() == ssn.ss
    requires InStep(ssn, cache, Story(start, []), Open(ssn.ss))
    modifies ssn.capacity.attrs, ssn.own, cache, cache.records
    ensures InStep(ssn, cache, Story(start, Upto(others, |Tries(ssn.ss)|)), Outcome(ssn.ss))
  {
    var queues, left := CollectFor(ssn, cache, Story(start, []), Open(ssn.ss));
    ghost var plan := SessionPlan(ssn.ss, queues, left);
    VisitRoundRobin(ssn, cache, others, queues, left, start, plan);
  }

  // ----- one period -----

  method OpenPlugin(ss: Snapshot) returns (capacity: CapacityPlugin)
    requires ValidSnapshot(ss)
    ensures fresh(capacity) && fresh(capacity.attrs)
    ensures capacity.Valid() && capacity.SharesExact() && capacity.LimitsAre(ss)
    ensures capacity.Allocated() == Open(ss).alloc
  {
    capacity := new CapacityPlugin();
    capacity.BuildQueueAttrs(ss);
  }

  method NewSession(snapshot: DispatcherCacheSnapshot, ghost ss: Snapshot, ghost own: set<Info>, cache: DispatcherCache)
    returns (ssn: Session)
    requires ValidSnapshot(ss) && snapshot.Value() == ss && Copies(snapshot.resourceBindingInfos, own, ss.infos)
    requires own !! cache.records && cache.Valid()
    ensures fresh(ssn.capacity.attrs) && ssn.own == own && ssn.ss == ss && ssn.snapshot == snapshot
    ensures snapshot.Value() == ss && InStep(ssn, cache, Story(cache.Contents(), []), Open(ss))
  {
    NothingYet(cache.Contents());
    var capacity := OpenPlugin(snapshot.Value());
    ssn := new Session(snapshot, capacity, ss, own);
    assert Keys(Open(ss).dispatched) == [];
  }

  /** A session opens on a snapshot; its plugin's books and its own records are the snapshot's. */
  method OpenSession(cache: DispatcherCache) returns (ssn: Session)
    requires cache.Valid() && UniqueUids(cache.infos) && ValidQueues(cache.Contents())
    modifies cache`infos, cache.records
    ensures fresh(ssn.own) && fresh(ssn.capacity.attrs)
    ensures ssn.ss == TakeSnapshot(old(cache.Contents())) && ValidSnapshot(ssn.ss) && ssn.snapshot.Value() == ssn.ss
    ensures InStep(ssn, cache, Story(WithPriorities(old(cache.Contents())), []), Open(ssn.ss))
    ensures fresh(cache.records - old(cache.records))
  {
    cache.IndexesAgree();
    SnapshotIsValid(cache.Contents());
    var snapshot, own := cache.Snapshot();
    ssn := NewSession(snapshot, TakeSnapshot(old(cache.Contents())), own, cache);
  }

  lemma NobodyElse(n: nat)
    ensures Upto([], n) == []
  {
  }

  /** One period of the dispatcher: the priorities are written, and the cache has the decisions on its
      snapshot as its requests, in order, among what others do meanwhile. Run undisturbed, it ends with
      every binding the session decided on marked and queued, and nothing else changed, although the
      session marked its own records too. */
  method RunOnce(cache: DispatcherCache, others: Schedule)
    requires cache.Valid() && UniqueUids(cache.infos) && ValidQueues(cache.Contents()) && OthersOnly(others)
    modifies cache, cache.records
    ensures ValidSnapshot(TakeSnapshot(old(cache.Contents())))
    ensures var before, ss := old(cache.Contents()), TakeSnapshot(old(cache.Contents()));
            Told(cache, Story(WithPriorities(before), Upto(others, |Tries(ss)|)), Decisions(ss))
    ensures var before := old(cache.Contents());
            others == [] ==> cache.Contents() == UnSuspendAll(WithPriorities(before), Decisions(TakeSnapshot(before)))
  {
    ghost var start := WithPriorities(cache.Contents());
    var ssn := OpenSession(cache);
    Dispatch(ssn, cache, others, start);
    if others == [] {
      NobodyElse(|Tries(ssn.ss)|);
      Undisturbed(start, Decisions(ssn.ss), cache.Contents());
    }
  }
}
