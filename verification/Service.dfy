/** The system serves: in any world in which a binding fits its empty queue, there is a run from
    an empty start in which it is created suspended, dispatched, and lifted. The guarantees over
    all runs are therefore not about runs in which nothing happens. */
module Service {
  import opened Resources
  import opened Api
  import opened Rounds
  import opened Sessions
  import opened Outcomes
  import opened Greedy
  import opened CacheModel
  import Admission
  import opened Clusters
  import opened Runs
  import opened Periods
  import opened CapacitySafety
  import AdmissionGate
  import P = Protocol
  import WQ = WorkQueues

  // ----- a session with one waiting binding -----

  /** A snapshot whose only binding waits for a queue it names, and fits it when empty. */
  ghost predicate OneWaits(ss: Snapshot, u: UID, k: Key) {
    && ValidSnapshot(ss) && ss.infos.Keys == {u}
    && ss.infos[u].rb.key == k && ss.infos[u].status == Suspended && ss.infos[u].queue in ss.queues
    && Fits(EMPTY, Limit(ss, ss.queues[ss.infos[u].queue]), Request(ss.infos[u]))
  }

  ghost predicate AllSuspended(ss: Snapshot) {
    forall u | u in ss.infos :: ss.infos[u].status == Suspended
  }

  lemma UndispatchedLoad(ss: Snapshot, ts: seq<QueueTry>, q: string)
    requires ValidSnapshot(ss) && Sound(ss, ts) && q in AttrQueues(ss) && AllSuspended(ss)
    requires forall u :: !IsDispatched(Run(ss, ts).dispatched, u)
    ensures q in Run(ss, ts).alloc && Run(ss, ts).alloc[q] == EMPTY
  {
    ShapeHolds(ss, ts);
    forall u | u in ss.infos ensures Run(ss, ts).infos[u] == ss.infos[u] {
      assert InfoAt(ss, Run(ss, ts), u);
    }
    assert Run(ss, ts).infos == ss.infos && Occupying(ss, ss.infos, q) == {};
    AccountingIsExact(ss, ts, q);
  }

  /** When nothing is allocated, and a binding fits its empty queue, somebody is dispatched. */
  lemma SomebodyIsDispatched(ss: Snapshot, u: UID) returns (v: UID)
    requires ValidSnapshot(ss) && AllSuspended(ss) && u in ss.infos && ss.infos[u].queue in ss.queues
    requires Fits(EMPTY, Limit(ss, ss.queues[ss.infos[u].queue]), Request(ss.infos[u]))
    ensures v in ss.infos && IsDispatched(Outcome(ss).dispatched, v)
  {
    var ts := Tries(ss);
    assert Sound(ss, ts) by { TriesAreSound(ss); }
    if v' :| IsDispatched(Run(ss, ts).dispatched, v') {
      DispatchedWasPending(ss, v');
      v := v';
    } else {
      assert Resolve(ss, ss.infos[u]) in AttrQueues(ss);
      UndispatchedLoad(ss, ts, ss.infos[u].queue);
      LeftOutDoesNotFit(ss, u);
    }
  }

  lemma DispatchedIsAsked(ss: Snapshot, u: UID)
    requires ValidSnapshot(ss) && u in ss.infos && IsDispatched(Outcome(ss).dispatched, u)
    ensures ss.infos[u].rb.key in Decisions(ss)
  {
    RequestsAreSound(ss);
    AskedIsDispatched(ss, Outcome(ss).dispatched, u);
  }

  lemma WaitingIsAsked(ss: Snapshot, u: UID, k: Key)
    requires OneWaits(ss, u, k)
    ensures k in Decisions(ss)
  {
    var v := SomebodyIsDispatched(ss, u);
    DispatchedIsAsked(ss, v);
  }

  lemma DecisionIs(ss: Snapshot, u: UID, k: Key, i: nat)
    requires OneWaits(ss, u, k) && i < |Decisions(ss)|
    ensures Decisions(ss)[i] == k
  {
    RequestFacts(ss, i);
  }

  lemma NoSecondDecision(ss: Snapshot, u: UID, k: Key)
    requires OneWaits(ss, u, k)
    ensures |Decisions(ss)| <= 1
  {
    if |Decisions(ss)| > 1 {
      RequestFacts(ss, 0);
      DecisionIs(ss, u, k, 0);
      DecisionIs(ss, u, k, 1);
    }
  }

  /** The session decides on exactly the waiting binding. */
  lemma WaitingIsDecided(ss: Snapshot, u: UID, k: Key)
    requires OneWaits(ss, u, k)
    ensures Decisions(ss) == [k]
  {
    WaitingIsAsked(ss, u, k);
    NoSecondDecision(ss, u, k);
    OnlyKey(Decisions(ss), k);
  }

  lemma OnlyKey(ds: seq<Key>, k: Key)
    requires k in ds && |ds| <= 1
    ensures ds == [k]
  {
  }

  // ----- steps of a steady run -----

  /** A well-formed system whose configuration is g and whose cached bindings are as in the world. */
  ghost predicate Proper(w: World, g: Config, c: Cluster) {
    && ValidWorld(w) && Wellformed(w, c) && InfosOk(w, c.p.cache.infos)
    && c.p.cache.queues == g.queues && c.p.cache.clusters == g.clusters && c.p.cache.pcs == g.pcs
  }

  lemma ConfigStays(s: P.State, x: P.Action)
    requires P.Enabled(s, x) && !x.ConfigChange? && !x.ClassChange?
    ensures var n := P.NextCache(s.cache, x);
            n.queues == s.cache.queues && n.clusters == s.cache.clusters && n.pcs == s.cache.pcs
  {
  }

  lemma ProperStep(w: World, g: Config, c: Cluster, a: Step)
    requires Proper(w, g, c) && Clusters.Enabled(w, c, a) && SameProfile(w, a) && !a.Reconfigure? && !a.ChangeClass?
    ensures Proper(w, g, Clusters.Next(w, c, a))
  {
    WellformedStep(w, c, a);
    InfosOkStep(w, c, a);
    match Clusters.Action(w, c, a) {
      case Some(x) => ConfigStays(c.p, x);
      case None =>
    }
  }

  lemma {:induction false} ProperAlong(w: World, g: Config, c: Cluster, steps: seq<Step>, conduct: Conduct, t: Cluster)
    requires Proper(w, g, c) && Path(w, c, steps, conduct, t)
    requires forall a | a in steps :: DispatcherStep(a)
    ensures Proper(w, g, t)
    decreases |steps|
  {
    if steps != [] {
      var n :| GoesTo(w, c, steps[0], conduct, n) && Path(w, n, steps[1..], conduct, t);
      assert DispatcherStep(steps[0]);
      ProperStep(w, g, c, steps[0]);
      assert forall a | a in steps[1..] :: a in steps;
      ProperAlong(w, g, n, steps[1..], conduct, t);
    }
  }

  /** The webhook makes the binding suspended, and the request is admitted. */
  ghost predicate Creatable(w: World, k: Key, r: Admission.Request) {
    IsWorkload(w, k) && r.ref == w.profiles[k].resource && Stored(w, r).Some?
  }

  lemma CreateStage(w: World, g: Config, c: Cluster, k: Key, r: Admission.Request, conduct: Conduct)
    returns (t: Cluster)
    requires Proper(w, g, c) && Creatable(w, k, r) && k !in c.versions
    ensures GoesTo(w, c, Create(k, r), conduct, t) && Proper(w, g, t)
    ensures t == c.(versions := c.versions[k := [StoredSuspension(w, r)]], seen := c.seen[k := 0])
    ensures SchedulingSuspended(StoredSuspension(w, r))
  {
    StoredIsSuspended(w, r);
    t := Clusters.Next(w, c, Create(k, r));
    ProperStep(w, g, c, Create(k, r));
  }

  /** The informer delivers a version of the binding, with its profile as in the world. */
  function Update(w: World, k: Key, i: nat): Step
    requires k in w.profiles
  {
    Deliver(k, i, w.profiles[k], Workload(w.profiles[k].queue, w.profiles[k].priorityClassName))
  }

  ghost function Delivered(w: World, c: Cluster, k: Key, i: nat): CacheState
    requires k in w.profiles && k in c.versions && i < |c.versions[k]|
  {
    var f := w.profiles[k];
    SetResourceBinding(c.p.cache, BindingOf(k, f, c.versions[k][i]), Workload(f.queue, f.priorityClassName))
  }

  /** The informer may deliver this version. */
  predicate Deliverable(w: World, c: Cluster, k: Key, i: nat) {
    && IsWorkload(w, k) && k in c.versions && k in c.seen && k !in c.closed
    && c.seen[k] <= i < |c.versions[k]|
  }

  lemma UpdateEnabled(w: World, c: Cluster, k: Key, i: nat)
    requires Deliverable(w, c, k, i)
    ensures Clusters.Enabled(w, c, Update(w, k, i)) && Steady(w, c, Update(w, k, i))
  {
  }

  lemma DeliverStage(w: World, g: Config, c: Cluster, k: Key, i: nat, conduct: Conduct) returns (t: Cluster)
    requires Proper(w, g, c) && Deliverable(w, c, k, i)
    requires conduct.calm ==> Calm(c, Update(w, k, i))
    ensures GoesTo(w, c, Update(w, k, i), conduct, t) && Proper(w, g, t)
    ensures t == c.(seen := c.seen[k := i + 1], p := c.p.(cache := Delivered(w, c, k, i)))
  {
    UpdateEnabled(w, c, k, i);
    t := Clusters.Next(w, c, Update(w, k, i));
    ProperStep(w, g, c, Update(w, k, i));
  }

  lemma PeriodStage(w: World, g: Config, c: Cluster, conduct: Conduct) returns (steps: seq<Step>, t: Cluster)
    requires Proper(w, g, c) && c.session == None && ActiveKnown(c.p.cache)
    ensures Path(w, c, steps, conduct, t) && Proper(w, g, t) && OnlyCache(c, t) && t.session == None
    ensures UniqueUids(c.p.cache.infos) && ValidSnapshot(TakeSnapshot(c.p.cache))
    ensures t.p.cache == UnSuspendAll(WithPriorities(c.p.cache), Decisions(TakeSnapshot(c.p.cache)))
  {
    CacheUids(w, c.p.cache.infos);
    SnapshotIsValid(c.p.cache);
    steps, t := UndisturbedPeriod(w, c, conduct);
    ProperAlong(w, g, c, steps, conduct, t);
  }

  lemma Handed(k: Key)
    ensures P.Start(multiset{}, P.Holding(k)) == multiset{P.Holding(k)}
  {
  }

  lemma LookedUp(k: Key)
    ensures P.Start(P.End(multiset{P.Holding(k)}, P.Holding(k)), P.Patching(k)) == multiset{P.Patching(k)}
  {
  }

  lemma WorkStage(w: World, g: Config, c: Cluster, k: Key, conduct: Conduct) returns (t: Cluster)
    requires Proper(w, g, c) && c.p.cache.tasks == WQ.WorkQueue({k}, {}, [k]) && c.p.procs == multiset{}
    ensures GoesTo(w, c, TakeWork, conduct, t) && Proper(w, g, t)
    ensures t == c.(p := c.p.(cache := c.p.cache.(tasks := WQ.WorkQueue({}, {k}, [])), procs := multiset{P.Holding(k)}))
  {
    t := Clusters.Next(w, c, TakeWork);
    ProperStep(w, g, c, TakeWork);
    Handed(k);
    assert [k][1..] == [];
  }

  lemma LookStage(w: World, g: Config, c: Cluster, k: Key, conduct: Conduct) returns (t: Cluster)
    requires Proper(w, g, c) && c.p.procs == multiset{P.Holding(k)} && k in c.p.cache.infos
    ensures GoesTo(w, c, LookUp(k), conduct, t) && Proper(w, g, t)
    ensures t == c.(p := c.p.(procs := multiset{P.Patching(k)}, starts := P.Bump(c.p.starts, k)))
  {
    t := Clusters.Next(w, c, LookUp(k));
    ProperStep(w, g, c, LookUp(k));
    LookedUp(k);
  }

  lemma ReturnStage(w: World, g: Config, c: Cluster, k: Key, conduct: Conduct) returns (t: Cluster)
    requires Proper(w, g, c) && P.Patching(k) in c.p.procs && Live(c, k)
    ensures GoesTo(w, c, Return(k, true, true), conduct, t) && Proper(w, g, t)
    ensures t.versions == c.versions[k := c.versions[k] + [Admission.Patched(false)]] && t.p.cache == c.p.cache
    ensures t.seen == c.seen && t.deleted == c.deleted && t.closed == c.closed && t.session == c.session
  {
    t := Clusters.Next(w, c, Return(k, true, true));
    ProperStep(w, g, c, Return(k, true, true));
  }

  // ----- a run that serves one binding -----

  /** What a session would take as the limit of the queue. */
  ghost function CapOf(g: Config, q: string): Resource
    requires q in g.queues
  {
    RealCapability(Sum(g.clusters.Keys, g.clusters), g.queues[q].capability)
  }

  /** A binding that names an existing queue and no unknown class, and fits its queue when empty. */
  ghost predicate Servable(w: World, g: Config, k: Key) {
    && ValidWorld(w) && ProperQueues(g.queues) && k in w.profiles && w.profiles[k].queue in g.queues
    && (w.profiles[k].priorityClassName == "" || w.profiles[k].priorityClassName in g.pcs.classes)
    && Fits(EMPTY, CapOf(g, w.profiles[k].queue), RequestOf(w.profiles[k]))
  }

  /** Nothing is under way, and the only cached binding is the key's, suspended. */
  ghost predicate Waits(c: Cluster, k: Key) {
    && c.session == None && c.p.cache.tasks == WQ.NO_WORK && c.p.procs == multiset{}
    && c.p.cache.infos.Keys == {k} && c.p.cache.infos[k].status == Suspended
  }

  lemma OnlyEntry(w: World, k: Key, c: CacheState)
    requires InfosOk(w, c.infos) && UniqueUids(c.infos) && c.infos.Keys == {k} && !Skipped(c.pcs, c.infos[k])
    ensures TakeSnapshot(c).infos.Keys == {c.infos[k].rb.uid}
    ensures TakeSnapshot(c).infos[c.infos[k].rb.uid] == ResolvePriority(c.pcs, c.infos[k])
  {
    FreshEntry(w, c, k);
    forall u | u in TakeSnapshot(c).infos ensures u == c.infos[k].rb.uid {
      var j := SnapshotEntry(w, c, u);
    }
  }

  lemma EntryWaits(w: World, g: Config, k: Key, ss: Snapshot, b: ResourceBindingInfo)
    requires Servable(w, g, k) && ValidSnapshot(ss) && ss.infos.Keys == {b.rb.uid} && ss.infos[b.rb.uid] == b
    requires ss.queues == g.queues && ss.total == Sum(g.clusters.Keys, g.clusters)
    requires InfoOk(w, k, b) && b.status == Suspended
    ensures OneWaits(ss, b.rb.uid, k)
  {
  }

  lemma WaitsInSnapshot(w: World, g: Config, c: Cluster, k: Key)
    requires Servable(w, g, k) && Proper(w, g, c) && Waits(c, k)
    requires UniqueUids(c.p.cache.infos) && ValidSnapshot(TakeSnapshot(c.p.cache))
    ensures OneWaits(TakeSnapshot(c.p.cache), w.profiles[k].uid, k)
  {
    var s := c.p.cache;
    assert InfoOk(w, k, s.infos[k]);
    assert !Skipped(s.pcs, s.infos[k]);
    OnlyEntry(w, k, s);
    ResolvedIsOk(w, s, k);
    EntryWaits(w, g, k, TakeSnapshot(s), ResolvePriority(s.pcs, s.infos[k]));
  }

  lemma AskedOnce(c: CacheState, k: Key)
    requires k in c.infos && c.tasks == WQ.NO_WORK
    ensures UnSuspendAll(c, [k]).tasks == WQ.WorkQueue({k}, {}, [k]) && UnSuspendAll(c, [k]).infos.Keys == c.infos.Keys
  {
    assert [k][..0] == [] && UnSuspendAll(c, []) == c;
  }

  lemma PrioritiesKeep(c: CacheState)
    ensures WithPriorities(c).infos.Keys == c.infos.Keys && WithPriorities(c).tasks == c.tasks
  {
  }

  lemma WaitingDecides(w: World, g: Config, c: Cluster, k: Key)
    requires Servable(w, g, k) && Proper(w, g, c) && Waits(c, k)
    requires UniqueUids(c.p.cache.infos) && ValidSnapshot(TakeSnapshot(c.p.cache))
    ensures Decisions(TakeSnapshot(c.p.cache)) == [k]
  {
    WaitsInSnapshot(w, g, c, k);
    WaitingIsDecided(TakeSnapshot(c.p.cache), w.profiles[k].uid, k);
  }

  /** A period asks for the waiting binding, and only for it. */
  lemma AskStage(w: World, g: Config, c: Cluster, k: Key, conduct: Conduct) returns (steps: seq<Step>, t: Cluster)
    requires Servable(w, g, k) && Proper(w, g, c) && Waits(c, k)
    ensures Path(w, c, steps, conduct, t) && Proper(w, g, t) && OnlyCache(c, t) && t.session == None
    ensures t.p.cache.tasks == WQ.WorkQueue({k}, {}, [k]) && t.p.cache.infos.Keys == {k}
  {
    steps, t := PeriodStage(w, g, c, conduct);
    WaitingDecides(w, g, c, k);
    PrioritiesKeep(c.p.cache);
    AskedOnce(WithPriorities(c.p.cache), k);
  }

  /** From waiting to a patch under way. */
  lemma PatchStage(w: World, g: Config, c: Cluster, k: Key, conduct: Conduct) returns (steps: seq<Step>, t: Cluster)
    requires Servable(w, g, k) && Proper(w, g, c) && Waits(c, k)
    ensures Path(w, c, steps, conduct, t) && Proper(w, g, t) && t.session == None
    ensures t.versions == c.versions && t.seen == c.seen && t.deleted == c.deleted && t.closed == c.closed
    ensures t.p.procs == multiset{P.Patching(k)} && t.p.cache.infos.Keys == {k}
  {
    var asked, c1 := AskStage(w, g, c, k, conduct);
    var c2 := WorkStage(w, g, c1, k, conduct);
    t := LookStage(w, g, c2, k, conduct);
    PathThen(w, c, asked, c1, TakeWork, conduct, c2);
    PathThen(w, c, asked + [TakeWork], c2, LookUp(k), conduct, t);
    steps := asked + [TakeWork] + [LookUp(k)];
  }

  lemma CachedWaits(w: World, c: Cluster, k: Key, t: Cluster)
    requires c.p.cache.tasks == WQ.NO_WORK && c.p.cache.infos == map[] && k in w.profiles
    requires k in c.versions && |c.versions[k]| == 1 && SuspendedAt(c.versions[k], 0)
    requires t.session == None && t.p.procs == multiset{} && t.p.cache == Delivered(w, c, k, 0)
    ensures Waits(t, k)
  {
  }

  /** The informer is past n versions of the key, and otherwise where it was. */
  ghost predicate SeenOnly(c: Cluster, t: Cluster, k: Key, n: nat) {
    && k in t.seen && t.seen[k] == n
    && forall j | j != k && j in c.seen :: j in t.seen && t.seen[j] == c.seen[j]
  }

  /** The first version is cached. */
  lemma FirstStage(w: World, g: Config, c: Cluster, k: Key, conduct: Conduct) returns (t: Cluster)
    requires Proper(w, g, c) && IsWorkload(w, k) && k !in c.closed
    requires k in c.versions && |c.versions[k]| == 1 && SuspendedAt(c.versions[k], 0) && k in c.seen && c.seen[k] == 0
    requires c.session == None && c.p.cache.tasks == WQ.NO_WORK && c.p.procs == multiset{} && c.p.cache.infos == map[]
    ensures GoesTo(w, c, Update(w, k, 0), conduct, t) && Proper(w, g, t) && Waits(t, k)
    ensures t.versions == c.versions && t.seen == c.seen[k := 1] && t.deleted == c.deleted && t.closed == c.closed
    ensures t.p.cache == Delivered(w, c, k, 0)
  {
    t := DeliverStage(w, g, c, k, 0, conduct);
    CachedWaits(w, c, k, t);
  }

  /** From an empty start: created, and cached as waiting. */
  lemma CacheStage(w: World, g: Config, c: Cluster, k: Key, r: Admission.Request, conduct: Conduct)
    returns (steps: seq<Step>, t: Cluster)
    requires Proper(w, g, c) && Creatable(w, k, r) && k !in c.versions && k !in c.closed
    requires c.session == None && c.p.cache.tasks == WQ.NO_WORK && c.p.procs == multiset{} && c.p.cache.infos == map[]
    ensures Path(w, c, steps, conduct, t) && Proper(w, g, t) && Waits(t, k)
    ensures SchedulingSuspended(StoredSuspension(w, r))
    ensures t.versions == c.versions[k := [StoredSuspension(w, r)]] && SeenOnly(c, t, k, 1)
    ensures t.deleted == c.deleted && t.closed == c.closed
  {
    var c1 := CreateStage(w, g, c, k, r, conduct);
    t := FirstStage(w, g, c1, k, conduct);
    PathTwo(w, c, Create(k, r), c1, Update(w, k, 0), conduct, t);
    steps := [Create(k, r)] + [Update(w, k, 0)];
  }

  lemma EmptyIsProper(w: World, g: Config)
    requires ValidWorld(w) && ProperQueues(g.queues)
    ensures Proper(w, g, Empty(w, g))
  {
    EmptyIsStart(w, g);
  }

  lemma Pair<T>(a: T, b: T)
    ensures [a] + [b] == [a, b]
  {
  }

  lemma ServedPath(w: World, g: Config, k: Key, r: Admission.Request, conduct: Conduct)
    returns (steps: seq<Step>, t: Cluster)
    requires Servable(w, g, k) && Creatable(w, k, r)
    ensures Path(w, Empty(w, g), steps, conduct, t) && k in t.versions
    ensures t.versions[k] == [StoredSuspension(w, r), Admission.Patched(false)]
    ensures SchedulingSuspended(StoredSuspension(w, r))
  {
    var c := Empty(w, g);
    EmptyIsProper(w, g);
    var cached, c1 := CacheStage(w, g, c, k, r, conduct);
    var asked, c2 := PatchStage(w, g, c1, k, conduct);
    t := ReturnStage(w, g, c2, k, conduct);
    Pair(StoredSuspension(w, r), Admission.Patched(false));
    PathConcat(w, c, cached, c1, asked, conduct, c2);
    PathThen(w, c, cached + asked, c2, Return(k, true, true), conduct, t);
    steps := cached + asked + [Return(k, true, true)];
  }

  /** From an empty start, and within the assumptions of the theorems over runs, a servable binding
      is created suspended, asked for and lifted. */
  lemma SomeRunServes(w: World, g: Config, k: Key, r: Admission.Request) returns (steps: seq<Step>)
    requires Servable(w, g, k) && Creatable(w, k, r)
    ensures Start(w, Empty(w, g)) && AdmissionGate.Resting(Empty(w, g)) && Clusters.Legal(w, Empty(w, g), steps)
    ensures SteadyRun(w, Empty(w, g), steps) && CalmRun(w, Empty(w, g), steps)
    ensures var t := Clusters.Exec(w, Empty(w, g), steps);
            && k in t.versions && t.versions[k] == [StoredSuspension(w, r), Admission.Patched(false)]
            && SchedulingSuspended(StoredSuspension(w, r))
  {
    EmptyIsStart(w, g);
    var t;
    steps, t := ServedPath(w, g, k, r, Conduct(true, true, None));
    PathIsRun(w, Empty(w, g), steps, Conduct(true, true, None), t);
  }
}
