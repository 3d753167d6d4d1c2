/** What the conditions on runs keep out: runs that end with more in a queue than the bound on calm
    and steady runs allows. In each of them the API lets a binding go while the cache counts it as
    waiting, and a session that opens meanwhile dispatches another one in its place. */
module Overflows {
  import opened Resources
  import opened Api
  import opened Sorting
  import opened Orders
  import opened Sessions
  import opened Outcomes
  import opened Greedy
  import opened CacheModel
  import Admission
  import opened Clusters
  import opened Runs
  import opened Periods
  import opened CapacitySafety
  import opened Service
  import P = Protocol
  import PriorityClasses

  // ----- a session with two waiting bindings -----

  ghost predicate AsksNoMore(a: Resource, b: Resource) {
    forall d :: Get(a, d) <= Get(b, d)
  }

  /** Nobody but these two is in the snapshot, and they wait. */
  ghost predicate OnlyTheseWait(ss: Snapshot, u: UID, v: UID) {
    forall x | x in ss.infos :: (x == u || x == v) && ss.infos[x].status == Suspended
  }

  /** Two bindings wait for one queue they both name; first is ahead, asks no more than second, and
      fits when the queue is empty. */
  ghost predicate TwoWait(ss: Snapshot, first: UID, second: UID) {
    && ValidSnapshot(ss) && OnlyTheseWait(ss, first, second) && first in ss.infos && second in ss.infos
    && ss.infos[first].queue == ss.infos[second].queue && ss.infos[first].queue in ss.queues
    && BindingLess(ss.infos[first], ss.infos[second])
    && AsksNoMore(Request(ss.infos[first]), Request(ss.infos[second]))
    && Fits(EMPTY, Limit(ss, ss.queues[ss.infos[first].queue]), Request(ss.infos[first]))
  }

  lemma FirstIsAsked(ss: Snapshot, first: UID, second: UID)
    requires TwoWait(ss, first, second)
    ensures ss.infos[first].rb.key in Decisions(ss)
  {
    var v := SomebodyIsDispatched(ss, first);
    if v != first {
      assert v == second && v in DispatchedUids(ss);
      NoPriorityInversion(ss, first, second);
    }
    DispatchedIsAsked(ss, first);
  }

  // ----- the stages of the runs -----

  /** Two bindings of one queue and one class that do not fit together: first is older and asks no
      more than second, and each fits alone. */
  ghost predicate Rivals(w: World, g: Config, first: Key, second: Key, d: Dim) {
    && first != second && Servable(w, g, first) && Servable(w, g, second)
    && w.profiles[first].queue == w.profiles[second].queue
    && w.profiles[first].priorityClassName == w.profiles[second].priorityClassName
    && w.profiles[first].created < w.profiles[second].created
    && AsksNoMore(RequestOf(w.profiles[first]), RequestOf(w.profiles[second]))
    && Get(RequestOf(w.profiles[first]), d) + Get(RequestOf(w.profiles[second]), d)
         > Get(CapOf(g, w.profiles[first].queue), d)
  }

  /** A freshly cached, suspended binding. */
  ghost predicate Fresh(w: World, infos: map<Key, ResourceBindingInfo>, k: Key) {
    && k in infos && infos[k].status == Suspended && infos[k].priority == 0 && k in w.profiles
    && infos[k].rb.created == w.profiles[k].created
  }

  /** No session is open, and nothing was deleted. */
  ghost predicate Quiet(w: World, g: Config, c: Cluster) {
    Proper(w, g, c) && c.session == None && c.deleted == {} && c.closed == {}
  }

  /** How many versions a key has in the API, and how many of them the informer is past. */
  ghost predicate Versions(c: Cluster, k: Key, m: nat, n: nat) {
    k in c.versions && |c.versions[k]| == m && k in c.seen && c.seen[k] == n
  }

  /** Created, suspended, and not delivered yet. */
  ghost predicate Unseen(c: Cluster, k: Key) {
    Versions(c, k, 1, 0) && SuspendedAt(c.versions[k], 0)
  }

  /** The API has let the second go with its version n, and the cache still counts it as waiting; the
      first is created. */
  ghost predicate LetGo(w: World, g: Config, c: Cluster, first: Key, second: Key, n: nat) {
    && Quiet(w, g, c) && Unseen(c, first)
    && c.p.cache.infos.Keys == {second} && Fresh(w, c.p.cache.infos, second)
    && Versions(c, second, n + 1, n) && !SuspendedAt(c.versions[second], n)
  }

  lemma EditStage(w: World, g: Config, c: Cluster, k: Key, s: Option<Suspension>, conduct: Conduct)
    returns (t: Cluster)
    requires Quiet(w, g, c) && Live(c, k) && (SchedulingSuspended(s) || conduct.but == Some(Edit(k, s)))
    ensures GoesTo(w, c, Edit(k, s), conduct, t) && Quiet(w, g, t)
    ensures t.versions == c.versions[k := c.versions[k] + [s]] && t.seen == c.seen && t.p == c.p
  {
    t := Clusters.Next(w, c, Edit(k, s));
    ProperStep(w, g, c, Edit(k, s));
  }

  lemma UpdateStage(w: World, g: Config, c: Cluster, k: Key, i: nat, conduct: Conduct) returns (t: Cluster)
    requires Quiet(w, g, c) && Deliverable(w, c, k, i) && (conduct.calm ==> Calm(c, Update(w, k, i)))
    ensures GoesTo(w, c, Update(w, k, i), conduct, t) && Quiet(w, g, t)
    ensures t.versions == c.versions && SeenOnly(c, t, k, i + 1)
    ensures t.p.cache == Delivered(w, c, k, i) && t.p.procs == c.p.procs
  {
    t := DeliverStage(w, g, c, k, i, conduct);
  }

  lemma OverwriteEffect(w: World, c: Cluster, k: Key, i: nat, t: Cluster)
    requires k in w.profiles && k in c.versions && i < |c.versions[k]| && SuspendedAt(c.versions[k], i)
    requires c.p.cache.infos.Keys == {k} && t.p.cache == Delivered(w, c, k, i)
    ensures t.p.cache.infos.Keys == {k} && Fresh(w, t.p.cache.infos, k)
  {
  }

  lemma JoinEffect(w: World, c: Cluster, k: Key, i: nat, other: Key, t: Cluster)
    requires k in w.profiles && k in c.versions && i < |c.versions[k]| && SuspendedAt(c.versions[k], i)
    requires k != other && c.p.cache.infos.Keys == {other} && Fresh(w, c.p.cache.infos, other)
    requires t.p.cache == Delivered(w, c, k, i)
    ensures t.p.cache.infos.Keys == {k, other} && Fresh(w, t.p.cache.infos, k) && Fresh(w, t.p.cache.infos, other)
  {
  }

  lemma NotCachedIsCalm(w: World, c: Cluster, k: Key, i: nat)
    requires k in w.profiles && k !in c.p.cache.infos
    ensures Calm(c, Update(w, k, i))
  {
  }

  lemma LiftIsCalm(w: World, c: Cluster, k: Key, i: nat)
    requires k in w.profiles && k in c.versions && i < |c.versions[k]| && !SuspendedAt(c.versions[k], i)
    ensures Calm(c, Update(w, k, i))
  {
  }

  lemma SuspendedIsCalm(w: World, c: Cluster, k: Key, i: nat)
    requires k in w.profiles && HasStatus(c.p.cache, k, Suspended)
    ensures Calm(c, Update(w, k, i))
  {
  }

  // ----- the session meanwhile -----

  /** The first is cached too. */
  lemma JoinStage(w: World, g: Config, c: Cluster, first: Key, second: Key, n: nat, conduct: Conduct)
    returns (t: Cluster)
    requires LetGo(w, g, c, first, second, n) && IsWorkload(w, first) && first != second
    ensures GoesTo(w, c, Update(w, first, 0), conduct, t) && Quiet(w, g, t)
    ensures t.p.cache.infos.Keys == {first, second}
    ensures Fresh(w, t.p.cache.infos, first) && Fresh(w, t.p.cache.infos, second)
    ensures Versions(t, second, n + 1, n) && t.versions == c.versions
  {
    NotCachedIsCalm(w, c, first, 0);
    t := UpdateStage(w, g, c, first, 0, conduct);
    JoinEffect(w, c, first, 0, second, t);
  }

  lemma FreshInSnapshot(w: World, g: Config, s: CacheState, k: Key)
    requires Servable(w, g, k) && InfosOk(w, s.infos) && UniqueUids(s.infos) && s.pcs == g.pcs && Fresh(w, s.infos, k)
    ensures var u := w.profiles[k].uid;
            && u in TakeSnapshot(s).infos && InfoOk(w, k, TakeSnapshot(s).infos[u])
            && TakeSnapshot(s).infos[u] == ResolvePriority(s.pcs, s.infos[k])
  {
    assert InfoOk(w, k, s.infos[k]);
    FreshEntry(w, s, k);
  }

  lemma OlderIsFirst(w: World, pcs: PriorityClasses.ClassState, a: ResourceBindingInfo, b: ResourceBindingInfo)
    requires a.priorityClassName == b.priorityClassName && a.priority == b.priority && a.rb.created < b.rb.created
    ensures BindingLess(ResolvePriority(pcs, a), ResolvePriority(pcs, b))
  {
    BindingLessMeaning(ResolvePriority(pcs, a), ResolvePriority(pcs, b));
  }

  lemma OnlyTwo(w: World, s: CacheState, first: Key, second: Key, u: UID)
    requires InfosOk(w, s.infos) && UniqueUids(s.infos) && s.infos.Keys == {first, second} && u in TakeSnapshot(s).infos
    requires Fresh(w, s.infos, first) && Fresh(w, s.infos, second)
    ensures u == w.profiles[first].uid || u == w.profiles[second].uid
    ensures TakeSnapshot(s).infos[u].status == Suspended
  {
    var k := SnapshotEntry(w, s, u);
    assert InfoOk(w, k, s.infos[k]);
  }

  /** Both are in the snapshot, as they are in the world, and the first is ahead. */
  ghost predicate Ahead(w: World, ss: Snapshot, first: Key, second: Key) {
    first in w.profiles && second in w.profiles &&
      var u, v := w.profiles[first].uid, w.profiles[second].uid;
      && u in ss.infos && v in ss.infos && InfoOk(w, first, ss.infos[u]) && InfoOk(w, second, ss.infos[v])
      && BindingLess(ss.infos[u], ss.infos[v])
  }

  lemma RivalsWait(w: World, g: Config, ss: Snapshot, first: Key, second: Key, d: Dim)
    requires Rivals(w, g, first, second, d) && ValidSnapshot(ss)
    requires ss.queues == g.queues && ss.total == Sum(g.clusters.Keys, g.clusters)
    requires Ahead(w, ss, first, second) && OnlyTheseWait(ss, w.profiles[first].uid, w.profiles[second].uid)
    ensures TwoWait(ss, w.profiles[first].uid, w.profiles[second].uid)
    ensures ss.infos[w.profiles[first].uid].rb.key == first
  {
  }

  lemma RivalIsAsked(w: World, g: Config, ss: Snapshot, first: Key, second: Key, d: Dim)
    requires Rivals(w, g, first, second, d) && ValidSnapshot(ss)
    requires ss.queues == g.queues && ss.total == Sum(g.clusters.Keys, g.clusters)
    requires Ahead(w, ss, first, second) && OnlyTheseWait(ss, w.profiles[first].uid, w.profiles[second].uid)
    ensures first in Decisions(ss)
  {
    RivalsWait(w, g, ss, first, second, d);
    FirstIsAsked(ss, w.profiles[first].uid, w.profiles[second].uid);
  }

  lemma SnapshotHasTwo(w: World, s: CacheState, first: Key, second: Key)
    requires InfosOk(w, s.infos) && UniqueUids(s.infos) && s.infos.Keys == {first, second}
    requires Fresh(w, s.infos, first) && Fresh(w, s.infos, second)
    ensures OnlyTheseWait(TakeSnapshot(s), w.profiles[first].uid, w.profiles[second].uid)
  {
    forall u | u in TakeSnapshot(s).infos
      ensures u == w.profiles[first].uid || u == w.profiles[second].uid
      ensures TakeSnapshot(s).infos[u].status == Suspended
    {
      OnlyTwo(w, s, first, second, u);
    }
  }

  /** The two fresh bindings are in the snapshot, the first one ahead. */
  lemma FirstIsAhead(w: World, g: Config, s: CacheState, first: Key, second: Key, d: Dim)
    requires Rivals(w, g, first, second, d) && InfosOk(w, s.infos) && UniqueUids(s.infos) && s.pcs == g.pcs
    requires Fresh(w, s.infos, first) && Fresh(w, s.infos, second)
    ensures Ahead(w, TakeSnapshot(s), first, second)
  {
    FreshInSnapshot(w, g, s, first);
    FreshInSnapshot(w, g, s, second);
    assert InfoOk(w, first, s.infos[first]) && InfoOk(w, second, s.infos[second]);
    OlderIsFirst(w, s.pcs, s.infos[first], s.infos[second]);
  }

  lemma SnapshotConfig(g: Config, s: CacheState)
    requires UniqueUids(s.infos) && s.queues == g.queues && s.clusters == g.clusters
    ensures TakeSnapshot(s).queues == g.queues && TakeSnapshot(s).total == Sum(g.clusters.Keys, g.clusters)
  {
  }

  lemma FirstIsDecided(w: World, g: Config, s: CacheState, first: Key, second: Key, d: Dim)
    requires Rivals(w, g, first, second, d) && InfosOk(w, s.infos) && s.infos.Keys == {first, second}
    requires s.queues == g.queues && s.clusters == g.clusters && s.pcs == g.pcs
    requires Fresh(w, s.infos, first) && Fresh(w, s.infos, second)
    requires UniqueUids(s.infos) && ValidSnapshot(TakeSnapshot(s))
    ensures first in Decisions(TakeSnapshot(s))
  {
    SnapshotConfig(g, s);
    var ss := TakeSnapshot(s);
    assert Ahead(w, ss, first, second) by { FirstIsAhead(w, g, s, first, second, d); }
    assert OnlyTheseWait(ss, w.profiles[first].uid, w.profiles[second].uid) by { SnapshotHasTwo(w, s, first, second); }
    RivalIsAsked(w, g, ss, first, second, d);
  }

  lemma NobodyActive(w: World, c: CacheState, first: Key, second: Key)
    requires c.infos.Keys == {first, second} && Fresh(w, c.infos, first) && Fresh(w, c.infos, second)
    ensures ActiveKnown(c)
  {
  }

  lemma AskedKeys(c: CacheState, ks: seq<Key>, k: Key)
    requires k in c.infos && k in ks
    ensures UnSuspendAll(WithPriorities(c), ks).infos.Keys == c.infos.Keys
    ensures UnSuspendAll(WithPriorities(c), ks).infos[k].status == UnSuspending
  {
    UnSuspendAllTouches(WithPriorities(c), ks, k);
  }

  /** A period asks for the first, whose queue looks empty. */
  lemma AskFirstStage(w: World, g: Config, c: Cluster, first: Key, second: Key, d: Dim, conduct: Conduct)
    returns (steps: seq<Step>, t: Cluster)
    requires Rivals(w, g, first, second, d) && Quiet(w, g, c) && c.p.cache.infos.Keys == {first, second}
    requires Fresh(w, c.p.cache.infos, first) && Fresh(w, c.p.cache.infos, second)
    ensures Path(w, c, steps, conduct, t) && Quiet(w, g, t) && t.versions == c.versions && t.seen == c.seen
    ensures t.p.cache.infos.Keys == {first, second} && t.p.cache.infos[first].status == UnSuspending
  {
    NobodyActive(w, c.p.cache, first, second);
    steps, t := PeriodStage(w, g, c, conduct);
    FirstIsDecided(w, g, c.p.cache, first, second, d);
    AskedKeys(c.p.cache, Decisions(TakeSnapshot(c.p.cache)), first);
  }

  /** Both occupy the queue. */
  ghost predicate BothActive(infos: map<Key, ResourceBindingInfo>, first: Key, second: Key) {
    && first in infos && second in infos && infos[first].status != Suspended && infos[second].status != Suspended
  }

  lemma LiftedAfter(w: World, c: Cluster, k: Key, i: nat, other: Key)
    requires k in w.profiles && k in c.versions && i < |c.versions[k]| && !SuspendedAt(c.versions[k], i) && other != k
    requires other in c.p.cache.infos && c.p.cache.infos[other].status == UnSuspending
    ensures BothActive(Delivered(w, c, k, i).infos, other, k)
  {
  }

  /** That the second was let go is delivered. */
  lemma HearStage(w: World, g: Config, c: Cluster, first: Key, second: Key, n: nat, conduct: Conduct)
    returns (t: Cluster)
    requires Quiet(w, g, c) && IsWorkload(w, second) && first != second
    requires Versions(c, second, n + 1, n) && !SuspendedAt(c.versions[second], n)
    requires first in c.p.cache.infos && c.p.cache.infos[first].status == UnSuspending
    ensures GoesTo(w, c, Update(w, second, n), conduct, t) && Proper(w, g, t)
    ensures BothActive(t.p.cache.infos, first, second)
  {
    LiftIsCalm(w, c, second, n);
    t := UpdateStage(w, g, c, second, n, conduct);
    LiftedAfter(w, c, second, n, first);
  }

  /** Once the second is let go unnoticed, both can come to occupy the queue. */
  lemma OverflowStage(w: World, g: Config, c: Cluster, first: Key, second: Key, d: Dim, n: nat, conduct: Conduct)
    returns (steps: seq<Step>, t: Cluster)
    requires Rivals(w, g, first, second, d) && IsWorkload(w, first) && IsWorkload(w, second)
    requires LetGo(w, g, c, first, second, n)
    ensures Path(w, c, steps, conduct, t) && Proper(w, g, t) && BothActive(t.p.cache.infos, first, second)
  {
    var c1 := JoinStage(w, g, c, first, second, n, conduct);
    var ask, c2 := AskFirstStage(w, g, c1, first, second, d, conduct);
    t := HearStage(w, g, c2, first, second, n, conduct);
    PathThen(w, c1, ask, c2, Update(w, second, n), conduct, t);
    PathCons(w, c, Update(w, first, 0), c1, ask + [Update(w, second, n)], conduct, t);
    steps := [Update(w, first, 0)] + (ask + [Update(w, second, n)]);
  }

  // ----- three ways to be let go unnoticed -----

  lemma UnseenAfter(c: Cluster, t: Cluster, k: Key, s: Option<Suspension>, other: Key)
    requires t.versions == c.versions[k := [s]] && t.seen == c.seen[k := 0] && SchedulingSuspended(s)
    ensures Unseen(t, k) && (other != k && Unseen(c, other) ==> Unseen(t, other))
  {
  }

  lemma FreshFirst(w: World, c: Cluster, k: Key, t: Cluster)
    requires k in w.profiles && Unseen(c, k) && t.p.cache == Delivered(w, c, k, 0)
    ensures Fresh(w, t.p.cache.infos, k)
  {
  }

  lemma SeenMore(c: Cluster, t: Cluster, first: Key, k: Key, m: nat, n: nat)
    requires t.versions == c.versions && SeenOnly(c, t, k, n) && k in c.versions && |c.versions[k]| == m
    requires Unseen(c, first) && first != k
    ensures Unseen(t, first) && Versions(t, k, m, n)
  {
  }

  /** Both are created, the first one first; the second is cached. */
  lemma BothCreated(w: World, g: Config, first: Key, r1: Admission.Request, second: Key, r2: Admission.Request,
                    conduct: Conduct) returns (steps: seq<Step>, t: Cluster)
    requires first != second && ValidWorld(w) && ProperQueues(g.queues)
    requires Creatable(w, first, r1) && Creatable(w, second, r2)
    ensures Path(w, Empty(w, g), steps, conduct, t) && Quiet(w, g, t) && Waits(t, second)
    ensures Unseen(t, first) && Versions(t, second, 1, 1) && Fresh(w, t.p.cache.infos, second)
  {
    EmptyIsProper(w, g);
    var c1 := CreateStage(w, g, Empty(w, g), first, r1, conduct);
    UnseenAfter(Empty(w, g), c1, first, StoredSuspension(w, r1), second);
    var c2 := CreateStage(w, g, c1, second, r2, conduct);
    UnseenAfter(c1, c2, second, StoredSuspension(w, r2), first);
    t := FirstStage(w, g, c2, second, conduct);
    SeenMore(c2, t, first, second, 1, 1);
    FreshFirst(w, c2, second, t);
    PathTwo(w, c1, Create(second, r2), c2, Update(w, second, 0), conduct, t);
    PathCons(w, Empty(w, g), Create(first, r1), c1, [Create(second, r2)] + [Update(w, second, 0)], conduct, t);
    steps := [Create(first, r1)] + ([Create(second, r2)] + [Update(w, second, 0)]);
  }

  /** The second is edited, in whatever way leaves it suspended or is allowed for. */
  lemma EditedStage(w: World, g: Config, c: Cluster, first: Key, second: Key, s: Option<Suspension>, m: nat,
                    conduct: Conduct) returns (t: Cluster)
    requires Quiet(w, g, c) && Unseen(c, first) && Versions(c, second, m, m) && m > 0 && first != second
    requires SchedulingSuspended(s) || conduct.but == Some(Edit(second, s))
    ensures GoesTo(w, c, Edit(second, s), conduct, t) && Quiet(w, g, t) && t.p == c.p
    ensures Unseen(t, first) && Versions(t, second, m + 1, m)
    ensures SuspendedAt(t.versions[second], m) <==> SchedulingSuspended(s)
  {
    t := EditStage(w, g, c, second, s, conduct);
  }

  /** The second binding's patch is under way, and an edit that leaves it suspended on its way. */
  ghost predicate Held(w: World, g: Config, c: Cluster, first: Key, second: Key) {
    && Quiet(w, g, c) && Unseen(c, first) && P.Patching(second) in c.p.procs && c.p.cache.infos.Keys == {second}
    && Versions(c, second, 2, 1) && SuspendedAt(c.versions[second], 1)
  }

  lemma HoldStage(w: World, g: Config, first: Key, r1: Admission.Request, second: Key, r2: Admission.Request,
                  conduct: Conduct) returns (steps: seq<Step>, t: Cluster)
    requires first != second && Servable(w, g, second) && Creatable(w, first, r1) && Creatable(w, second, r2)
    ensures Path(w, Empty(w, g), steps, conduct, t) && Held(w, g, t, first, second)
  {
    var created, c1 := BothCreated(w, g, first, r1, second, r2, conduct);
    var asked, c2 := PatchStage(w, g, c1, second, conduct);
    t := EditedStage(w, g, c2, first, second, Admission.Patched(true), 1, conduct);
    PathConcat(w, Empty(w, g), created, c1, asked, conduct, c2);
    PathThen(w, Empty(w, g), created + asked, c2, Edit(second, Admission.Patched(true)), conduct, t);
    steps := created + asked + [Edit(second, Admission.Patched(true))];
  }

  lemma RefreshIsCalm(w: World, c: Cluster, k: Key, conduct: Conduct)
    requires k in w.profiles && (conduct.calm ==> HasStatus(c.p.cache, k, Suspended))
    ensures conduct.calm ==> Calm(c, Update(w, k, 1))
  {
    if conduct.calm {
      SuspendedIsCalm(w, c, k, 1);
    }
  }

  lemma RefreshDeliverable(w: World, g: Config, c: Cluster, k: Key, m: nat)
    requires Quiet(w, g, c) && IsWorkload(w, k) && Versions(c, k, m, 1) && m >= 2
    ensures Deliverable(w, c, k, 1)
  {
  }

  lemma RefreshStep(w: World, g: Config, c: Cluster, k: Key, m: nat, conduct: Conduct) returns (t: Cluster)
    requires Quiet(w, g, c) && IsWorkload(w, k) && Versions(c, k, m, 1) && m >= 2
    requires conduct.calm ==> HasStatus(c.p.cache, k, Suspended)
    ensures GoesTo(w, c, Update(w, k, 1), conduct, t) && Quiet(w, g, t)
    ensures t.versions == c.versions && SeenOnly(c, t, k, 2)
    ensures t.p.cache == Delivered(w, c, k, 1) && t.p.procs == c.p.procs
  {
    RefreshDeliverable(w, g, c, k, m);
    RefreshIsCalm(w, c, k, conduct);
    t := UpdateStage(w, g, c, k, 1, conduct);
  }

  /** The update is delivered: nothing but the status of the second is overwritten. */
  lemma RefreshStage(w: World, g: Config, c: Cluster, first: Key, second: Key, m: nat, conduct: Conduct)
    returns (t: Cluster)
    requires Quiet(w, g, c) && IsWorkload(w, second) && c.p.cache.infos.Keys == {second} && first != second
    requires Unseen(c, first) && Versions(c, second, m, 1) && m >= 2 && SuspendedAt(c.versions[second], 1)
    requires conduct.calm ==> HasStatus(c.p.cache, second, Suspended)
    ensures GoesTo(w, c, Update(w, second, 1), conduct, t) && Quiet(w, g, t) && t.p.procs == c.p.procs
    ensures t.p.cache.infos.Keys == {second} && Fresh(w, t.p.cache.infos, second)
    ensures Unseen(t, first) && Versions(t, second, m, 2) && t.versions == c.versions
  {
    t := RefreshStep(w, g, c, second, m, conduct);
    OverwriteEffect(w, c, second, 1, t);
    SeenMore(c, t, first, second, m, 2);
  }

  /** The patch is applied, and reported as told. */
  lemma AnswerStage(w: World, g: Config, c: Cluster, k: Key, ok: bool, conduct: Conduct) returns (t: Cluster)
    requires Quiet(w, g, c) && P.Patching(k) in c.p.procs && Live(c, k)
    requires ok || conduct.but == Some(Return(k, false, true))
    ensures GoesTo(w, c, Return(k, ok, true), conduct, t) && Quiet(w, g, t)
    ensures t.versions == c.versions[k := c.versions[k] + [Admission.Patched(false)]] && t.p.cache == c.p.cache
    ensures t.seen == c.seen && (!ok ==> P.Recovering(k) in t.p.procs)
  {
    t := Clusters.Next(w, c, Return(k, ok, true));
    ProperStep(w, g, c, Return(k, ok, true));
  }

  lemma RecoverStage(w: World, g: Config, c: Cluster, k: Key, conduct: Conduct) returns (t: Cluster)
    requires Quiet(w, g, c) && P.Recovering(k) in c.p.procs && c.p.cache.infos.Keys == {k}
    ensures GoesTo(w, c, PutBack(k), conduct, t) && Quiet(w, g, t) && t.versions == c.versions && t.seen == c.seen
    ensures t.p.cache.infos.Keys == {k} && HasStatus(t.p.cache, k, Suspended)
  {
    t := Clusters.Next(w, c, PutBack(k));
    ProperStep(w, g, c, PutBack(k));
  }

  /** One more version, which is not suspended. */
  ghost predicate OneMoreLifted(c: Cluster, t: Cluster, k: Key) {
    k in c.versions && t.versions == c.versions[k := c.versions[k] + [Admission.Patched(false)]] && t.seen == c.seen
  }

  lemma LiftedLast(c: Cluster, t: Cluster, first: Key, k: Key, m: nat, n: nat)
    requires OneMoreLifted(c, t, k) && Versions(c, k, m, n) && Unseen(c, first) && first != k
    ensures Versions(t, k, m + 1, n) && !SuspendedAt(t.versions[k], m) && Unseen(t, first)
    ensures forall i | 0 <= i < m :: SuspendedAt(t.versions[k], i) == SuspendedAt(c.versions[k], i)
  {
  }

  lemma AnswerLetsGo(w: World, g: Config, c: Cluster, t: Cluster, first: Key, second: Key)
    requires Quiet(w, g, t) && OneMoreLifted(c, t, second) && t.p.cache == c.p.cache && first != second
    requires c.p.cache.infos.Keys == {second} && Fresh(w, c.p.cache.infos, second)
    requires Unseen(c, first) && Versions(c, second, 2, 2)
    ensures LetGo(w, g, t, first, second, 2)
  {
    LiftedLast(c, t, first, second, 2, 2);
  }

  /** The update overwrites the status while the patch is under way, and the patch goes through. */
  lemma OverwrittenStage(w: World, g: Config, c: Cluster, first: Key, second: Key, conduct: Conduct)
    returns (steps: seq<Step>, t: Cluster)
    requires Held(w, g, c, first, second) && IsWorkload(w, second) && first != second && !conduct.calm
    ensures Path(w, c, steps, conduct, t) && LetGo(w, g, t, first, second, 2)
  {
    var c1 := RefreshStage(w, g, c, first, second, 2, conduct);
    t := AnswerStage(w, g, c1, second, true, conduct);
    AnswerLetsGo(w, g, c1, t, first, second);
    PathTwo(w, c, Update(w, second, 1), c1, Return(second, true, true), conduct, t);
    steps := [Update(w, second, 1)] + [Return(second, true, true)];
  }

  /** The patch goes through, but the worker is told it failed, and puts the status back. */
  lemma PutBackStage(w: World, g: Config, c: Cluster, first: Key, second: Key, conduct: Conduct)
    returns (steps: seq<Step>, t: Cluster)
    requires Held(w, g, c, first, second) && first != second && conduct.but == Some(Return(second, false, true))
    ensures Path(w, c, steps, conduct, t) && Quiet(w, g, t)
    ensures t.p.cache.infos.Keys == {second} && HasStatus(t.p.cache, second, Suspended) && Unseen(t, first)
    ensures Versions(t, second, 3, 1) && SuspendedAt(t.versions[second], 1) && !SuspendedAt(t.versions[second], 2)
  {
    var c1 := AnswerStage(w, g, c, second, false, conduct);
    LiftedLast(c, c1, first, second, 2, 1);
    t := RecoverStage(w, g, c1, second, conduct);
    PathTwo(w, c, Return(second, false, true), c1, PutBack(second), conduct, t);
    steps := [Return(second, false, true)] + [PutBack(second)];
  }

  lemma MisreportedStage(w: World, g: Config, c: Cluster, first: Key, second: Key, conduct: Conduct)
    returns (steps: seq<Step>, t: Cluster)
    requires Held(w, g, c, first, second) && IsWorkload(w, second) && first != second
    requires conduct.but == Some(Return(second, false, true))
    ensures Path(w, c, steps, conduct, t) && LetGo(w, g, t, first, second, 2)
  {
    var back, c1 := PutBackStage(w, g, c, first, second, conduct);
    t := RefreshStage(w, g, c1, first, second, 3, conduct);
    PathThen(w, c, back, c1, Update(w, second, 1), conduct, t);
    steps := back + [Update(w, second, 1)];
  }

  /** An edit takes the suspension away. */
  lemma LiftedStage(w: World, g: Config, c: Cluster, first: Key, second: Key, conduct: Conduct) returns (t: Cluster)
    requires Quiet(w, g, c) && Waits(c, second) && Unseen(c, first) && Versions(c, second, 1, 1) && first != second
    requires Fresh(w, c.p.cache.infos, second) && conduct.but == Some(Edit(second, None))
    ensures GoesTo(w, c, Edit(second, None), conduct, t) && LetGo(w, g, t, first, second, 1)
  {
    t := EditedStage(w, g, c, first, second, None, 1, conduct);
  }

  // ----- the load -----

  lemma SumOne(u: UID, amounts: map<UID, Resource>, d: Dim)
    requires u in amounts
    ensures Get(Sum({u}, amounts), d) == Get(amounts[u], d)
  {
    SumTake({u}, amounts, u);
  }

  lemma SumTwo(u: UID, v: UID, amounts: map<UID, Resource>, d: Dim)
    requires u in amounts && v in amounts && u != v
    ensures Get(Sum({u, v}, amounts), d) == Get(amounts[u], d) + Get(amounts[v], d)
  {
    SumUnion({u}, {v}, amounts, d);
    assert {u} + {v} == {u, v};
    SumOne(u, amounts, d);
    SumOne(v, amounts, d);
  }

  lemma RequestedAt(w: World, k: Key)
    requires ValidWorld(w) && k in w.profiles
    ensures w.profiles[k].uid in Requested(w) && Requested(w)[w.profiles[k].uid] == RequestOf(w.profiles[k])
  {
  }

  lemma BothLoad(w: World, infos: map<Key, ResourceBindingInfo>, first: Key, second: Key, d: Dim)
    requires ValidWorld(w) && InfosOk(w, infos) && first != second && BothActive(infos, first, second)
    requires first in w.profiles && second in w.profiles && w.profiles[first].queue == w.profiles[second].queue != ""
    ensures Get(LoadNow(w, infos, w.profiles[first].queue), d)
         >= Get(RequestOf(w.profiles[first]), d) + Get(RequestOf(w.profiles[second]), d)
  {
    var q, u, v := w.profiles[first].queue, w.profiles[first].uid, w.profiles[second].uid;
    assert InfoOk(w, first, infos[first]) && InfoOk(w, second, infos[second]);
    assert u in Occupants(w.defaultQueue, infos, q) && v in Occupants(w.defaultQueue, infos, q);
    OccupantsKnown(w, infos, q);
    SumMonotone({u, v}, Occupants(w.defaultQueue, infos, q), Requested(w), d);
    RequestedAt(w, first);
    RequestedAt(w, second);
    SumTwo(u, v, Requested(w), d);
  }

  lemma NoLoad(w: World, g: Config, q: string, d: Dim)
    requires ValidWorld(w)
    ensures Get(LoadNow(w, Empty(w, g).p.cache.infos, q), d) == 0
  {
    assert Occupants(w.defaultQueue, Empty(w, g).p.cache.infos, q) == {};
  }

  /** A run from the empty system that ends above the bound that holds in calm and steady runs, in
      which queues and clusters never change. */
  ghost predicate Overflows(w: World, g: Config, steps: seq<Step>, q: string, d: Dim)
    requires ValidWorld(w)
  {
    var c := Empty(w, g);
    && Clusters.Legal(w, c, steps) && (forall a | a in steps :: !a.Reconfigure?)
    && var t := Clusters.Exec(w, c, steps);
       && InfosOk(w, t.p.cache.infos)
       && Get(LoadNow(w, t.p.cache.infos, q), d)
            > Max(Get(LoadNow(w, c.p.cache.infos, q), d), HighestLimit(w, c, steps, q, d))
  }

  lemma Exceeds(load: nat, start: nat, highest: nat, cap: nat)
    requires load > cap >= highest && start == 0
    ensures load > Max(start, highest)
  {
  }

  lemma RivalsOverflow(w: World, g: Config, first: Key, second: Key, d: Dim, steps: seq<Step>, conduct: Conduct,
                       t: Cluster)
    requires Rivals(w, g, first, second, d) && Path(w, Empty(w, g), steps, conduct, t)
    requires Proper(w, g, t) && BothActive(t.p.cache.infos, first, second)
    ensures Overflows(w, g, steps, w.profiles[first].queue, d)
  {
    var q := w.profiles[first].queue;
    PathIsRun(w, Empty(w, g), steps, conduct, t);
    FixedLimit(w, Empty(w, g), steps, q, d);
    NoLoad(w, g, q, d);
    BothLoad(w, t.p.cache.infos, first, second, d);
    Exceeds(Get(LoadNow(w, t.p.cache.infos, q), d), Get(LoadNow(w, Empty(w, g).p.cache.infos, q), d),
            HighestLimit(w, Empty(w, g), steps, q, d), Get(CapOf(g, q), d));
  }

  /** From where the second was let go to the end of the run. */
  lemma LetGoOverflows(w: World, g: Config, first: Key, second: Key, d: Dim, before: seq<Step>, c: Cluster, n: nat,
                       conduct: Conduct) returns (steps: seq<Step>, t: Cluster)
    requires Rivals(w, g, first, second, d) && IsWorkload(w, first) && IsWorkload(w, second)
    requires Path(w, Empty(w, g), before, conduct, c) && LetGo(w, g, c, first, second, n)
    ensures Path(w, Empty(w, g), steps, conduct, t) && Overflows(w, g, steps, w.profiles[first].queue, d)
  {
    var rest;
    rest, t := OverflowStage(w, g, c, first, second, d, n, conduct);
    steps := before + rest;
    PathConcat(w, Empty(w, g), before, c, rest, conduct, t);
    RivalsOverflow(w, g, first, second, d, steps, conduct, t);
  }

  // ----- the three runs -----

  /** Capacity needs calm: for any two such bindings there is a steady run that ends above the bound.
      An update that still says suspended is delivered while the patch is under way. */
  lemma CapacityNeedsCalm(w: World, g: Config, first: Key, r1: Admission.Request, second: Key, r2: Admission.Request,
                          d: Dim) returns (steps: seq<Step>)
    requires Rivals(w, g, first, second, d) && Creatable(w, first, r1) && Creatable(w, second, r2)
    ensures Overflows(w, g, steps, w.profiles[first].queue, d)
    ensures SteadyRun(w, Empty(w, g), steps) && !CalmRun(w, Empty(w, g), steps)
  {
    var conduct := Conduct(true, false, None);
    var held, c1 := HoldStage(w, g, first, r1, second, r2, conduct);
    var overwritten, c2 := OverwrittenStage(w, g, c1, first, second, conduct);
    PathConcat(w, Empty(w, g), held, c1, overwritten, conduct, c2);
    var t;
    steps, t := LetGoOverflows(w, g, first, second, d, held + overwritten, c2, 2, conduct);
    PathIsRun(w, Empty(w, g), steps, conduct, t);
    EmptyIsStart(w, g);
    if CalmRun(w, Empty(w, g), steps) {
      CapacityIsSafe(w, Empty(w, g), steps, w.profiles[first].queue, d);
      assert false;
    }
  }

  /** Capacity needs failed patches not to be applied: there is a calm run, steady but for one patch
      that is applied and reported as failed, that ends above the bound. */
  lemma CapacityNeedsTrueReports(w: World, g: Config, first: Key, r1: Admission.Request, second: Key,
                                 r2: Admission.Request, d: Dim) returns (steps: seq<Step>)
    requires Rivals(w, g, first, second, d) && Creatable(w, first, r1) && Creatable(w, second, r2)
    ensures Overflows(w, g, steps, w.profiles[first].queue, d)
    ensures CalmRun(w, Empty(w, g), steps) && SteadyBut(w, Empty(w, g), steps, Return(second, false, true))
  {
    var conduct := Conduct(true, true, Some(Return(second, false, true)));
    var held, c1 := HoldStage(w, g, first, r1, second, r2, conduct);
    var misreported, c2 := MisreportedStage(w, g, c1, first, second, conduct);
    PathConcat(w, Empty(w, g), held, c1, misreported, conduct, c2);
    var t;
    steps, t := LetGoOverflows(w, g, first, second, d, held + misreported, c2, 2, conduct);
    PathIsRun(w, Empty(w, g), steps, conduct, t);
  }

  /** Capacity needs nobody else to lift suspensions: there is a calm run, steady but for one edit that
      takes a suspension away, that ends above the bound. */
  lemma CapacityNeedsNoLifting(w: World, g: Config, first: Key, r1: Admission.Request, second: Key,
                               r2: Admission.Request, d: Dim) returns (steps: seq<Step>)
    requires Rivals(w, g, first, second, d) && Creatable(w, first, r1) && Creatable(w, second, r2)
    ensures Overflows(w, g, steps, w.profiles[first].queue, d)
    ensures CalmRun(w, Empty(w, g), steps) && SteadyBut(w, Empty(w, g), steps, Edit(second, None))
  {
    var conduct := Conduct(true, true, Some(Edit(second, None)));
    var created, c1 := BothCreated(w, g, first, r1, second, r2, conduct);
    var c2 := LiftedStage(w, g, c1, first, second, conduct);
    PathThen(w, Empty(w, g), created, c1, Edit(second, None), conduct, c2);
    var t;
    steps, t := LetGoOverflows(w, g, first, second, d, created + [Edit(second, None)], c2, 1, conduct);
    PathIsRun(w, Empty(w, g), steps, conduct, t);
  }

  // ----- such bindings exist -----

  const FIRST: Key := Key("default", "a")
  const SECOND: Key := Key("default", "b")
  const JOB: ObjectReference := ObjectReference("v1", "Job", "")

  function OneCpu(uid: UID, created: int): Profile {
    Profile(uid, created, JOB, map[CPU := 1], 1, "q", "")
  }

  /** One cluster with one CPU, one queue, two bindings that ask for the CPU. */
  function SmallWorld(): World {
    World("q", {Admission.GVK("", "v1", "Job")}, map[FIRST := OneCpu("a", 0), SECOND := OneCpu("b", 1)])
  }

  function SmallConfig(): Config {
    Config(map["q" := QueueInfo("q", "q", 0, 0, EMPTY)], map["cluster" := map[CPU := 1]], PriorityClasses.NO_CLASSES)
  }

  function Submit(): Admission.Request {
    Admission.Request(Admission.Create, true, Some(Admission.JObject(map["spec" := Admission.JObject(map[])])), JOB)
  }

  lemma SmallCreatable(k: Key)
    requires k == FIRST || k == SECOND
    ensures Creatable(SmallWorld(), k, Submit())
  {
    assert "v1"[1..] == "1" && "1"[1..] == [];
    assert Admission.Slashes("1") == 0 && Admission.Slashes("v1") == 0;
    assert Admission.Lookup(Submit().doc.value, Admission.SUSPENSION) == None by {
      assert Admission.SUSPENSION[1..] == ["suspension"];
      assert Admission.Lookup(Admission.JObject(map[]), ["suspension"]) == None;
    }
    Admission.PatchApplies(Submit().doc.value, Admission.PatchValue(true));
  }

  lemma SmallCap()
    ensures Get(CapOf(SmallConfig(), "q"), CPU) == 1
  {
    var clusters := SmallConfig().clusters;
    SumTake(clusters.Keys, clusters, "cluster");
    assert clusters.Keys - {"cluster"} == {};
    assert RealCapability(Sum(clusters.Keys, clusters), EMPTY) == Sum(clusters.Keys, clusters);
  }

  lemma SmallFits(cap: Resource)
    requires Get(cap, CPU) == 1
    ensures Multi(map[CPU := 1], 1) == map[CPU := 1] && Fits(EMPTY, cap, map[CPU := 1])
  {
  }

  lemma SmallValid()
    ensures ValidWorld(SmallWorld())
  {
    assert SmallWorld().profiles[FIRST].uid == "a" && SmallWorld().profiles[SECOND].uid == "b" && "a"[0] != "b"[0];
    assert forall k | k in SmallWorld().profiles :: k == FIRST || k == SECOND;
  }

  lemma SmallServable(k: Key)
    requires k == FIRST || k == SECOND
    ensures Servable(SmallWorld(), SmallConfig(), k) && RequestOf(SmallWorld().profiles[k]) == map[CPU := 1]
  {
    SmallValid();
    SmallCap();
    SmallFits(CapOf(SmallConfig(), "q"));
    assert SmallWorld().profiles[k].replicaRequest == map[CPU := 1] && SmallWorld().profiles[k].replicas == 1;
  }

  lemma SmallRivals()
    ensures Rivals(SmallWorld(), SmallConfig(), FIRST, SECOND, CPU)
  {
    SmallServable(FIRST);
    SmallServable(SECOND);
    SmallCap();
  }

  /** The bound does fail in some run: the premises above can be met. */
  lemma SomeRunOverflows()
    ensures exists w: World, g: Config, steps: seq<Step>, q: string ::
              ValidWorld(w) && Overflows(w, g, steps, q, CPU) && SteadyRun(w, Empty(w, g), steps)
  {
    SmallCreatable(FIRST);
    SmallCreatable(SECOND);
    SmallRivals();
    var steps := CapacityNeedsCalm(SmallWorld(), SmallConfig(), FIRST, Submit(), SECOND, Submit(), CPU);
  }
}
