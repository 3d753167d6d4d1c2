/** Capacity over whole concurrent runs. */
module CapacitySafety {
  import opened Resources
  import opened Api
  import opened Sessions
  import opened Outcomes
  import opened CacheModel
  import opened Clusters
  import opened Runs
  import P = Protocol
  import WQ = WorkQueues
  import PriorityClasses

  // ----- loads -----

  function RequestOf(f: Profile): Resource {
    Multi(f.replicaRequest, f.replicas)
  }

  ghost function Requested(w: World): map<UID, Resource>
    requires ValidWorld(w)
  {
    map k | k in w.profiles :: w.profiles[k].uid := RequestOf(w.profiles[k])
  }

  ghost predicate InfoOk(w: World, k: Key, b: ResourceBindingInfo) {
    && k in w.profiles && b.rb.key == k && b.rb.uid == w.profiles[k].uid
    && Request(b) == RequestOf(w.profiles[k])
    && b.queue == w.profiles[k].queue && b.priorityClassName == w.profiles[k].priorityClassName
  }

  ghost predicate InfosOk(w: World, infos: map<Key, ResourceBindingInfo>) {
    forall k | k in infos :: InfoOk(w, k, infos[k])
  }

  lemma OccupantsKnown(w: World, infos: map<Key, ResourceBindingInfo>, q: string)
    requires ValidWorld(w) && InfosOk(w, infos)
    ensures Occupants(w.defaultQueue, infos, q) <= Requested(w).Keys
  {
    forall u | u in Occupants(w.defaultQueue, infos, q) ensures u in Requested(w) {
      var k :| k in infos && UidAt(infos, k) == u;
      assert InfoOk(w, k, infos[k]);
    }
  }

  /** The load of a queue, by the requests in the world. */
  ghost function LoadNow(w: World, infos: map<Key, ResourceBindingInfo>, q: string): Resource
    requires ValidWorld(w) && InfosOk(w, infos)
  {
    OccupantsKnown(w, infos, q);
    Sum(Occupants(w.defaultQueue, infos, q), Requested(w))
  }

  /** It is the summed request of the cached bindings of the queue that are not suspended. */
  lemma LoadIsFull(w: World, infos: map<Key, ResourceBindingInfo>, q: string)
    requires ValidWorld(w) && InfosOk(w, infos) && UniqueUids(infos)
    ensures LoadNow(w, infos, q) == FullLoad(w.defaultQueue, infos, q)
  {
    OccupantsKnown(w, infos, q);
    OccupantsCached(w.defaultQueue, infos, q);
    var us := Occupants(w.defaultQueue, infos, q);
    forall u | u in us ensures Requested(w)[u] == CachedRequests(infos)[u] {
      var k :| k in infos && Occupies(w.defaultQueue, infos, q, k) && UidAt(infos, k) == u;
      assert InfoOk(w, k, infos[k]);
      assert w.profiles[k].uid == u;
    }
    SumAgrees(us, Requested(w), CachedRequests(infos));
  }

  lemma FewerOccupantsLessLoad(w: World, a: map<Key, ResourceBindingInfo>, b: map<Key, ResourceBindingInfo>,
                               q: string, d: Dim)
    requires ValidWorld(w) && InfosOk(w, a) && InfosOk(w, b)
    requires Occupants(w.defaultQueue, a, q) <= Occupants(w.defaultQueue, b, q)
    ensures Get(LoadNow(w, a, q), d) <= Get(LoadNow(w, b, q), d)
  {
    OccupantsKnown(w, b, q);
    SumMonotone(Occupants(w.defaultQueue, a, q), Occupants(w.defaultQueue, b, q), Requested(w), d);
  }

  /** What a session opened now would take as the limit of the queue. */
  ghost function LimitNow(c: CacheState, q: string, d: Dim): nat {
    if q in c.queues then Get(RealCapability(Sum(c.clusters.Keys, c.clusters), c.queues[q].capability), d) else 0
  }

  // ----- a session under way -----

  ghost predicate SnapshotOk(w: World, ss: Snapshot) {
    && ValidSnapshot(ss)
    && ss.defaultQueue == w.defaultQueue
    && EntriesOk(w, ss)
  }

  ghost predicate EntriesOk(w: World, ss: Snapshot) {
    forall u | u in ss.infos :: InfoOk(w, ss.infos[u].rb.key, ss.infos[u])
  }

  /** What is cached and not suspended was already so in the snapshot, or the session has asked
      for it since; and it will not ask for it (again). */
  ghost predicate Covered(infos: map<Key, ResourceBindingInfo>, ss: Snapshot, asked: seq<Key>, toAsk: seq<Key>, k: Key)
  {
    k in infos && infos[k].status != Suspended ==>
      var u := infos[k].rb.uid;
      && u in ss.infos && ss.infos[u].rb.key == k
      && (ss.infos[u].status != Suspended || k in asked)
      && k !in toAsk
  }

  ghost predicate SessionOk(w: World, infos: map<Key, ResourceBindingInfo>, ss: Snapshot, done: nat) {
    && SnapshotOk(w, ss)
    && done <= |Decisions(ss)|
    && forall k :: Covered(infos, ss, Decisions(ss)[..done], Decisions(ss)[done..], k)
  }

  lemma CoveredOccupant(w: World, infos: map<Key, ResourceBindingInfo>, ss: Snapshot, asked: seq<Key>,
                        toAsk: seq<Key>, q: string, k: Key)
    requires SnapshotOk(w, ss) && k in infos && InfoOk(w, k, infos[k]) && Covered(infos, ss, asked, toAsk, k)
    requires infos[k].status != Suspended && QueueOf(w.defaultQueue, infos[k]) == q
    ensures infos[k].rb.uid in Occupying(ss, After(ss, asked), q)
  {
    assert InfoOk(w, k, ss.infos[infos[k].rb.uid]);
  }

  lemma CoveredOccupants(w: World, infos: map<Key, ResourceBindingInfo>, ss: Snapshot, asked: seq<Key>,
                         toAsk: seq<Key>, q: string)
    requires SnapshotOk(w, ss) && InfosOk(w, infos) && forall k :: Covered(infos, ss, asked, toAsk, k)
    ensures Occupants(w.defaultQueue, infos, q) <= Occupying(ss, After(ss, asked), q)
  {
    forall u | u in Occupants(w.defaultQueue, infos, q) ensures u in Occupying(ss, After(ss, asked), q) {
      var k :| k in infos && Occupies(w.defaultQueue, infos, q, k) && UidAt(infos, k) == u;
      assert InfoOk(w, k, infos[k]) && Covered(infos, ss, asked, toAsk, k);
      CoveredOccupant(w, infos, ss, asked, toAsk, q, k);
    }
  }

  lemma SnapshotRequests(w: World, ss: Snapshot, asked: seq<Key>, us: set<UID>)
    requires ValidWorld(w) && SnapshotOk(w, ss) && us <= ss.infos.Keys
    ensures us <= Requested(w).Keys && Sum(us, Requested(w)) == Sum(us, Requests(After(ss, asked)))
  {
    forall u | u in us ensures u in Requested(w) && Requested(w)[u] == Requests(After(ss, asked))[u] {
      var k := ss.infos[u].rb.key;
      assert InfoOk(w, k, ss.infos[u]);
      assert w.profiles[k].uid == u;
    }
    SumAgrees(us, Requested(w), Requests(After(ss, asked)));
  }

  /** The cached load stays within what the session's own books say after the same requests. */
  lemma CoveredLoad(w: World, infos: map<Key, ResourceBindingInfo>, ss: Snapshot, asked: seq<Key>, toAsk: seq<Key>,
                    q: string, d: Dim)
    requires ValidWorld(w) && SnapshotOk(w, ss) && InfosOk(w, infos) && forall k :: Covered(infos, ss, asked, toAsk, k)
    ensures Get(LoadNow(w, infos, q), d) <= Get(Load(ss, After(ss, asked), q), d)
  {
    var view := Occupying(ss, After(ss, asked), q);
    CoveredOccupants(w, infos, ss, asked, toAsk, q);
    SnapshotRequests(w, ss, asked, view);
    SumMonotone(Occupants(w.defaultQueue, infos, q), view, Requested(w), d);
  }

  // ----- taking the snapshot -----

  /** A cache of the world. */
  ghost predicate CacheOk(w: World, c: CacheState) {
    c.defaultQueue == w.defaultQueue && ValidQueues(c) && InfosOk(w, c.infos) && TwinIndex(c)
  }

  lemma CacheUids(w: World, infos: map<Key, ResourceBindingInfo>)
    requires ValidWorld(w) && InfosOk(w, infos)
    ensures UidsOk(w, infos) && UniqueUids(infos)
  {
    forall k | k in infos ensures UidOk(w, k, infos[k]) {
      assert InfoOk(w, k, infos[k]);
    }
    UidsAreUnique(w, infos);
  }

  lemma ResolvedIsOk(w: World, c: CacheState, k: Key)
    requires InfosOk(w, c.infos) && k in c.infos
    ensures InfoOk(w, k, ResolvePriority(c.pcs, c.infos[k]))
    ensures ResolvePriority(c.pcs, c.infos[k]).status == c.infos[k].status
  {
    assert InfoOk(w, k, c.infos[k]);
  }

  lemma SnapshotEntry(w: World, c: CacheState, u: UID) returns (k: Key)
    requires InfosOk(w, c.infos) && UniqueUids(c.infos) && u in TakeSnapshot(c).infos
    ensures k in c.infos && c.infos[k].rb.uid == u && TakeSnapshot(c).infos[u] == ResolvePriority(c.pcs, c.infos[k])
    ensures InfoOk(w, k, TakeSnapshot(c).infos[u]) && TakeSnapshot(c).infos[u].status == c.infos[k].status
  {
    k :| k in c.infos && !Skipped(c.pcs, c.infos[k]) && c.infos[k].rb.uid == u;
    ResolvedIsOk(w, c, k);
  }

  lemma SnapshotIsOk(w: World, c: CacheState)
    requires ValidWorld(w) && CacheOk(w, c) && UniqueUids(c.infos)
    ensures SnapshotOk(w, TakeSnapshot(c))
  {
    SnapshotIsValid(c);
    var ss := TakeSnapshot(c);
    forall u | u in ss.infos ensures InfoOk(w, ss.infos[u].rb.key, ss.infos[u]) {
      var k := SnapshotEntry(w, c, u);
    }
  }

  /** A binding whose class is known is in the snapshot. */
  lemma FreshEntry(w: World, c: CacheState, k: Key)
    requires InfosOk(w, c.infos) && UniqueUids(c.infos) && k in c.infos && !Skipped(c.pcs, c.infos[k])
    ensures c.infos[k].rb.uid in TakeSnapshot(c).infos
    ensures TakeSnapshot(c).infos[c.infos[k].rb.uid] == ResolvePriority(c.pcs, c.infos[k])
    ensures InfoOk(w, k, TakeSnapshot(c).infos[c.infos[k].rb.uid])
  {
    assert UidAt(c.infos, k) == c.infos[k].rb.uid;
    ResolvedIsOk(w, c, k);
  }

  ghost predicate SuspendedIn(ss: Snapshot, k: Key) {
    exists u :: u in ss.infos && ss.infos[u].rb.key == k && ss.infos[u].status == Suspended
  }

  lemma FreshSessionCovers(w: World, c: CacheState, toAsk: seq<Key>, k: Key)
    requires ValidWorld(w) && InfosOk(w, c.infos) && UniqueUids(c.infos) && ActiveKnown(c)
    requires forall x | x in toAsk :: SuspendedIn(TakeSnapshot(c), x)
    ensures Covered(WithPriorities(c).infos, TakeSnapshot(c), [], toAsk, k)
  {
    if k in c.infos && c.infos[k].status != Suspended {
      FreshEntry(w, c, k);
      ResolvedIsOk(w, c, k);
      if k in toAsk {
        AskedIsSuspended(w, c, k);
      }
    }
  }

  lemma AskedIsSuspended(w: World, c: CacheState, k: Key)
    requires InfosOk(w, c.infos) && UniqueUids(c.infos) && SuspendedIn(TakeSnapshot(c), k)
    ensures k in c.infos && c.infos[k].status == Suspended
  {
    var ss := TakeSnapshot(c);
    var u :| u in ss.infos && ss.infos[u].rb.key == k && ss.infos[u].status == Suspended;
    var j := SnapshotEntry(w, c, u);
    assert j == k;
  }

  lemma FreshOccupants(w: World, c: CacheState, q: string)
    requires CacheOk(w, c) && UniqueUids(c.infos) && ActiveKnown(c)
    ensures Occupying(TakeSnapshot(c), TakeSnapshot(c).infos, q) == Occupants(w.defaultQueue, c.infos, q)
  {
    forall u
      ensures u in Occupying(TakeSnapshot(c), TakeSnapshot(c).infos, q) <==> u in Occupants(w.defaultQueue, c.infos, q)
    {
      FreshOccupant(w, c, q, u);
    }
  }

  lemma FreshOccupant(w: World, c: CacheState, q: string, u: UID)
    requires CacheOk(w, c) && UniqueUids(c.infos) && ActiveKnown(c)
    ensures u in Occupying(TakeSnapshot(c), TakeSnapshot(c).infos, q) <==> u in Occupants(w.defaultQueue, c.infos, q)
  {
    if u in TakeSnapshot(c).infos {
      var k := SnapshotEntry(w, c, u);
      assert forall j | j in c.infos && UidAt(c.infos, j) == u :: j == k;
    }
    if u in Occupants(w.defaultQueue, c.infos, q) {
      var k :| k in c.infos && Occupies(w.defaultQueue, c.infos, q, k) && UidAt(c.infos, k) == u;
      FreshEntry(w, c, k);
    }
  }

  /** A session that opens on all active bindings opens on books that agree with the cache. */
  lemma FreshLoad(w: World, c: CacheState, q: string)
    requires ValidWorld(w) && CacheOk(w, c) && UniqueUids(c.infos) && ActiveKnown(c)
    ensures Load(TakeSnapshot(c), TakeSnapshot(c).infos, q) == LoadNow(w, c.infos, q)
  {
    assert SnapshotOk(w, TakeSnapshot(c)) by { SnapshotIsOk(w, c); }
    FreshOccupants(w, c, q);
    BooksAgree(w, TakeSnapshot(c), q);
  }

  lemma BooksAgree(w: World, ss: Snapshot, q: string)
    requires ValidWorld(w) && SnapshotOk(w, ss)
    ensures Occupying(ss, ss.infos, q) <= Requested(w).Keys
    ensures Load(ss, ss.infos, q) == Sum(Occupying(ss, ss.infos, q), Requested(w))
  {
    assert After(ss, []) == ss.infos;
    SnapshotRequests(w, ss, [], Occupying(ss, ss.infos, q));
  }

  // ----- steps -----

  lemma InfoStep(w: World, s: P.State, x: P.Action, k: Key)
    requires P.Enabled(s, x) && (k in s.cache.infos ==> InfoOk(w, k, s.cache.infos[k]))
    requires x.SetBinding? && x.rb.key == k && x.lookup.Workload? ==>
               InfoOk(w, k, NewInfo(x.rb, x.lookup.queueName, x.lookup.priorityClassName))
    ensures k in P.NextCache(s.cache, x).infos ==> InfoOk(w, k, P.NextCache(s.cache, x).infos[k])
  {
  }

  lemma InfosOkStep(w: World, c: Cluster, a: Step)
    requires Clusters.Enabled(w, c, a) && SameProfile(w, a) && InfosOk(w, c.p.cache.infos)
    ensures InfosOk(w, NextP(w, c, a).cache.infos)
  {
    match Clusters.Action(w, c, a) {
      case Some(x) =>
        forall k | k in P.NextCache(c.p.cache, x).infos ensures InfoOk(w, k, P.NextCache(c.p.cache, x).infos[k]) {
          InfoStep(w, c.p, x, k);
        }
      case None =>
    }
  }

  predicate Active(v: P.KeyView) {
    v.cached && !v.suspended
  }

  /** What is delivered under the key as a workload's binding is one. */
  predicate DeliversWorkload(w: World, a: Step, k: Key) {
    a.Deliver? && a.key == k && a.lookup.Workload? ==> IsWorkload(w, k)
  }

  /** A cached binding stops being suspended only when the dispatcher asks for it. */
  lemma ActiveBefore(w: World, c: Cluster, a: Step, k: Key)
    requires P.Inv(c.p) && KeyOk(w, c, k) && Clusters.Enabled(w, c, a) && DeliversWorkload(w, a, k)
    requires Active(P.ViewOf(NextP(w, c, a), k))
    ensures Active(P.ViewOf(c.p, k)) || (a.NextRequest? && About(w, c, a, k))
  {
    EventStep(w, c, a, k);
    if Event(w, c, a, k).Called? {
      CalledByRequest(w, c, a, k);
    } else if Event(w, c, a, k).Stored? {
      StoredByDelivery(w, c, a, k);
    }
  }

  lemma StoredIsDelivered(w: World, c: Cluster, a: Step, k: Key)
    requires Clusters.Enabled(w, c, a) && Event(w, c, a, k).Stored?
    ensures a.Deliver? && a.key == k && a.lookup.Workload?
    ensures Event(w, c, a, k).suspended == SuspendedAt(c.versions[k], a.version)
  {
    P.EventKinds(c.p, Clusters.Action(w, c, a).value, k);
  }

  lemma LiftedIsActive(v: P.KeyView, vs: seq<Option<Suspension>>, n: nat, i: nat)
    requires StatusOk(v, vs, n) && n <= i < |vs| && !SuspendedAt(vs, i)
    ensures Active(v) || v.unsuspending
  {
  }

  lemma StoredByDelivery(w: World, c: Cluster, a: Step, k: Key)
    requires P.Inv(c.p) && KeyOk(w, c, k) && Clusters.Enabled(w, c, a) && DeliversWorkload(w, a, k)
    requires Event(w, c, a, k).Stored? && !Event(w, c, a, k).suspended
    ensures Active(P.ViewOf(c.p, k))
  {
    StoredIsDelivered(w, c, a, k);
    LiftedIsActive(P.ViewOf(c.p, k), c.versions[k], c.seen[k], a.version);
    assert P.KeyInv(P.ViewOf(c.p, k));
  }

  // ----- the invariant of the whole system -----

  ghost predicate Base(w: World, c: Cluster) {
    Wellformed(w, c) && (forall k :: KeyOk(w, c, k)) && InfosOk(w, c.p.cache.infos)
  }

  /** The session under way, if any, has covered what is active. */
  ghost predicate Books(w: World, c: Cluster) {
    c.session.Some? ==> SessionOk(w, c.p.cache.infos, c.session.value.ss, c.session.value.done)
  }

  lemma BaseStep(w: World, c: Cluster, a: Step)
    requires Base(w, c) && Clusters.Enabled(w, c, a) && Calm(c, a) && Steady(w, c, a) && AsksSuspended(w, c, a)
    ensures Base(w, Clusters.Next(w, c, a))
  {
    WellformedStep(w, c, a);
    InfosOkStep(w, c, a);
    forall k ensures KeyOk(w, Clusters.Next(w, c, a), k) {
      KeyOkStep(w, c, a, k);
    }
  }

  lemma NextIsSuspended(infos: map<Key, ResourceBindingInfo>, ss: Snapshot, ds: seq<Key>, n: nat)
    requires n < |ds| && Covered(infos, ss, ds[..n], ds[n..], ds[n])
    ensures ds[n] in infos ==> infos[ds[n]].status == Suspended
  {
    assert ds[n..][0] == ds[n];
  }

  lemma BooksAskSuspended(w: World, c: Cluster, a: Step)
    requires Base(w, c) && Books(w, c) && Clusters.Enabled(w, c, a)
    ensures AsksSuspended(w, c, a)
  {
    if a.NextRequest? {
      var ss, n := c.session.value.ss, c.session.value.done;
      NextIsSuspended(c.p.cache.infos, ss, Decisions(ss), n);
    }
  }

  lemma RequestCovers(w: World, c: Cluster, ds: seq<Key>, n: nat, infos: map<Key, ResourceBindingInfo>, ss: Snapshot)
    requires ValidWorld(w) && SnapshotOk(w, ss) && n < |ds| && InfosOk(w, infos)
    requires exists u :: u in ss.infos && ss.infos[u].rb.key == ds[n]
    requires forall j | 0 <= j < |ds| && j != n :: ds[j] != ds[n]
    ensures Covered(infos, ss, ds[..n + 1], ds[n + 1..], ds[n])
  {
    var k := ds[n];
    if k in infos {
      var u :| u in ss.infos && ss.infos[u].rb.key == k;
      assert InfoOk(w, k, infos[k]) && InfoOk(w, k, ss.infos[u]);
    }
    assert ds[..n + 1][n] == k;
    var rest := ds[n + 1..];
    assert forall j | 0 <= j < |rest| :: rest[j] == ds[n + 1 + j];
  }

  lemma CoveredKept(w: World, before: map<Key, ResourceBindingInfo>, after: map<Key, ResourceBindingInfo>,
                    ss: Snapshot, ds: seq<Key>, n: nat, m: nat, k: Key)
    requires n <= m <= |ds| && Covered(before, ss, ds[..n], ds[n..], k)
    requires InfosOk(w, before) && InfosOk(w, after)
    requires k in after && after[k].status != Suspended ==> k in before && before[k].status != Suspended
    ensures Covered(after, ss, ds[..m], ds[m..], k)
  {
    if k in after && after[k].status != Suspended {
      assert InfoOk(w, k, before[k]) && InfoOk(w, k, after[k]);
      assert ds[..m][..n] == ds[..n];
      assert forall x | x in ds[..n] :: x in ds[..m];
      assert ds[m..] == ds[n..][m - n..];
    }
  }

  lemma CoveredStep(w: World, c: Cluster, a: Step, k: Key)
    requires ValidWorld(w) && Base(w, c) && Books(w, c) && Clusters.Enabled(w, c, a) && Steady(w, c, a)
    requires c.session.Some? && !a.BeginSession? && !a.EndSession?
    ensures var ss, m := c.session.value.ss, DoneAfter(c, a);
            Covered(NextP(w, c, a).cache.infos, ss, Decisions(ss)[..m], Decisions(ss)[m..], k)
  {
    var ss, n := c.session.value.ss, c.session.value.done;
    var m := DoneAfter(c, a);
    InfosOkStep(w, c, a);
    assert KeyOk(w, c, k);
    if a.NextRequest? && About(w, c, a, k) {
      RequestFacts(ss, n);
      RequestCovers(w, c, Decisions(ss), n, NextP(w, c, a).cache.infos, ss);
    } else {
      if Active(P.ViewOf(NextP(w, c, a), k)) {
        ActiveBefore(w, c, a, k);
      }
      CoveredKept(w, c.p.cache.infos, NextP(w, c, a).cache.infos, ss, Decisions(ss), n, m, k);
    }
  }

  lemma RequestsSuspended(ss: Snapshot)
    requires ValidSnapshot(ss)
    ensures forall x | x in Decisions(ss) :: SuspendedIn(ss, x)
  {
    var ds := Decisions(ss);
    forall x | x in ds ensures SuspendedIn(ss, x) {
      var i :| 0 <= i < |ds| && ds[i] == x;
      RequestFacts(ss, i);
    }
  }

  lemma FreshBooks(w: World, c: CacheState)
    requires ValidWorld(w) && CacheOk(w, c) && UniqueUids(c.infos) && ActiveKnown(c)
    ensures SessionOk(w, WithPriorities(c).infos, TakeSnapshot(c), 0)
  {
    SnapshotIsOk(w, c);
    RequestsSuspended(TakeSnapshot(c));
    var ds := Decisions(TakeSnapshot(c));
    assert ds[..0] == [] && ds[0..] == ds;
    forall k ensures Covered(WithPriorities(c).infos, TakeSnapshot(c), ds[..0], ds[0..], k) {
      FreshSessionCovers(w, c, ds, k);
    }
  }

  /** How far the session is after a step that neither opens nor ends one. */
  function DoneAfter(c: Cluster, a: Step): nat
    requires c.session.Some?
  {
    if a.NextRequest? then c.session.value.done + 1 else c.session.value.done
  }

  lemma BooksContinue(w: World, c: Cluster, a: Step)
    requires ValidWorld(w) && Base(w, c) && Books(w, c) && Clusters.Enabled(w, c, a) && Steady(w, c, a)
    requires c.session.Some? && !a.BeginSession? && !a.EndSession?
    ensures SessionOk(w, NextP(w, c, a).cache.infos, c.session.value.ss, DoneAfter(c, a))
  {
    var ss, m := c.session.value.ss, DoneAfter(c, a);
    forall k ensures Covered(NextP(w, c, a).cache.infos, ss, Decisions(ss)[..m], Decisions(ss)[m..], k) {
      CoveredStep(w, c, a, k);
    }
  }

  lemma SessionAfter(w: World, c: Cluster, a: Step)
    requires Clusters.Enabled(w, c, a)
    ensures var t := Clusters.Next(w, c, a);
            if a.BeginSession? then
              && t.session == Some(OpenSession(TakeSnapshot(c.p.cache), 0))
              && t.p.cache.infos == WithPriorities(c.p.cache).infos
            else if a.EndSession? || c.session.None? then t.session == None
            else t.session == Some(OpenSession(c.session.value.ss, DoneAfter(c, a)))
  {
  }

  lemma BooksStep(w: World, c: Cluster, a: Step)
    requires ValidWorld(w) && Base(w, c) && Books(w, c) && Clusters.Enabled(w, c, a) && Steady(w, c, a)
    ensures Books(w, Clusters.Next(w, c, a))
  {
    SessionAfter(w, c, a);
    if a.BeginSession? {
      FreshBooks(w, c.p.cache);
    } else if c.session.Some? && !a.EndSession? {
      BooksContinue(w, c, a);
    }
  }

  /** What the load is measured from: the open session's snapshot, or the cache itself. */
  ghost function Opening(w: World, c: Cluster, q: string): Resource
    requires ValidWorld(w) && InfosOk(w, c.p.cache.infos)
  {
    if c.session.Some? then Load(c.session.value.ss, c.session.value.ss.infos, q)
    else LoadNow(w, c.p.cache.infos, q)
  }

  /** The limit the open session goes by. */
  ghost function OpenLimit(c: Cluster, q: string, d: Dim): nat {
    if c.session.Some? then LimitAt(c.session.value.ss, q, d) else 0
  }

  lemma LoadBound(w: World, c: Cluster, q: string, d: Dim)
    requires ValidWorld(w) && Base(w, c) && Books(w, c)
    ensures Get(LoadNow(w, c.p.cache.infos, q), d) <= Max(Get(Opening(w, c, q), d), OpenLimit(c, q, d))
  {
    if c.session.Some? {
      var ss, n := c.session.value.ss, c.session.value.done;
      CoveredLoad(w, c.p.cache.infos, ss, Decisions(ss)[..n], Decisions(ss)[n..], q, d);
      BoundAfterRequests(ss, n, q, d);
    }
  }

  /** Active after only if active before. */
  predicate ActiveKept(before: map<Key, ResourceBindingInfo>, after: map<Key, ResourceBindingInfo>, k: Key) {
    k in after && after[k].status != Suspended ==> k in before && before[k].status != Suspended
  }

  lemma OccupantKept(w: World, before: map<Key, ResourceBindingInfo>, after: map<Key, ResourceBindingInfo>, q: string,
                     k: Key)
    requires InfosOk(w, before) && InfosOk(w, after) && ActiveKept(before, after, k)
    requires Occupies(w.defaultQueue, after, q, k)
    ensures UidAt(after, k) in Occupants(w.defaultQueue, before, q)
  {
    assert InfoOk(w, k, before[k]) && InfoOk(w, k, after[k]);
    assert Occupies(w.defaultQueue, before, q, k);
  }

  lemma FewerActive(w: World, before: map<Key, ResourceBindingInfo>, after: map<Key, ResourceBindingInfo>, q: string)
    requires InfosOk(w, before) && InfosOk(w, after) && forall k :: ActiveKept(before, after, k)
    ensures Occupants(w.defaultQueue, after, q) <= Occupants(w.defaultQueue, before, q)
  {
    forall u | u in Occupants(w.defaultQueue, after, q) ensures u in Occupants(w.defaultQueue, before, q) {
      var k :| k in after && Occupies(w.defaultQueue, after, q, k) && UidAt(after, k) == u;
      assert ActiveKept(before, after, k);
      OccupantKept(w, before, after, q, k);
    }
  }

  lemma ActiveKeptBy(w: World, c: Cluster, a: Step, k: Key)
    requires P.Inv(c.p) && KeyOk(w, c, k) && Clusters.Enabled(w, c, a) && Steady(w, c, a) && !a.NextRequest?
    ensures ActiveKept(c.p.cache.infos, NextP(w, c, a).cache.infos, k)
  {
    if Active(P.ViewOf(NextP(w, c, a), k)) {
      ActiveBefore(w, c, a, k);
    }
  }

  lemma OccupantsShrink(w: World, c: Cluster, a: Step, q: string)
    requires Base(w, c) && Clusters.Enabled(w, c, a) && Steady(w, c, a) && !a.NextRequest?
    ensures InfosOk(w, NextP(w, c, a).cache.infos)
    ensures Occupants(w.defaultQueue, NextP(w, c, a).cache.infos, q) <= Occupants(w.defaultQueue, c.p.cache.infos, q)
  {
    InfosOkStep(w, c, a);
    forall k ensures ActiveKept(c.p.cache.infos, NextP(w, c, a).cache.infos, k) {
      assert KeyOk(w, c, k);
      ActiveKeptBy(w, c, a, k);
    }
    FewerActive(w, c.p.cache.infos, NextP(w, c, a).cache.infos, q);
  }

  lemma FreshLimit(c: CacheState, q: string, d: Dim)
    requires UniqueUids(c.infos)
    ensures LimitAt(TakeSnapshot(c), q, d) == LimitNow(c, q, d)
  {
  }

  lemma FreshOpening(w: World, c: CacheState, q: string)
    requires ValidWorld(w) && CacheOk(w, c) && ActiveKnown(c)
    ensures UniqueUids(c.infos)
    ensures Load(TakeSnapshot(c), TakeSnapshot(c).infos, q) == LoadNow(w, c.infos, q)
  {
    CacheUids(w, c.infos);
    FreshLoad(w, c, q);
  }

  lemma OpeningBegins(w: World, c: Cluster, q: string, d: Dim)
    requires ValidWorld(w) && Base(w, c) && Clusters.Enabled(w, c, BeginSession) && Steady(w, c, BeginSession)
    ensures InfosOk(w, NextP(w, c, BeginSession).cache.infos)
    ensures Opening(w, Clusters.Next(w, c, BeginSession), q) == Opening(w, c, q)
    ensures OpenLimit(Clusters.Next(w, c, BeginSession), q, d) == LimitNow(c.p.cache, q, d)
  {
    InfosOkStep(w, c, BeginSession);
    SessionAfter(w, c, BeginSession);
    FreshOpening(w, c.p.cache, q);
    FreshLimit(c.p.cache, q, d);
  }

  lemma OpeningEnds(w: World, c: Cluster, q: string, d: Dim)
    requires ValidWorld(w) && Base(w, c) && Books(w, c) && Clusters.Enabled(w, c, EndSession)
    ensures InfosOk(w, NextP(w, c, EndSession).cache.infos)
    ensures Get(Opening(w, Clusters.Next(w, c, EndSession), q), d) <= Max(Get(Opening(w, c, q), d), OpenLimit(c, q, d))
    ensures OpenLimit(Clusters.Next(w, c, EndSession), q, d) == 0
  {
    InfosOkStep(w, c, EndSession);
    LoadBound(w, c, q, d);
  }

  lemma OpeningIdles(w: World, c: Cluster, a: Step, q: string, d: Dim)
    requires ValidWorld(w) && Base(w, c) && Clusters.Enabled(w, c, a) && Steady(w, c, a)
    requires c.session.None? && !a.BeginSession?
    ensures InfosOk(w, NextP(w, c, a).cache.infos)
    ensures Get(Opening(w, Clusters.Next(w, c, a), q), d) <= Get(Opening(w, c, q), d)
    ensures OpenLimit(Clusters.Next(w, c, a), q, d) == 0
  {
    SessionAfter(w, c, a);
    OccupantsShrink(w, c, a, q);
    FewerOccupantsLessLoad(w, NextP(w, c, a).cache.infos, c.p.cache.infos, q, d);
  }

  lemma OpeningStays(w: World, c: Cluster, a: Step, q: string, d: Dim)
    requires ValidWorld(w) && Base(w, c) && Clusters.Enabled(w, c, a) && Steady(w, c, a)
    requires c.session.Some? && !a.BeginSession? && !a.EndSession?
    ensures InfosOk(w, NextP(w, c, a).cache.infos)
    ensures Opening(w, Clusters.Next(w, c, a), q) == Opening(w, c, q)
    ensures OpenLimit(Clusters.Next(w, c, a), q, d) == OpenLimit(c, q, d)
  {
    InfosOkStep(w, c, a);
    SessionAfter(w, c, a);
  }

  /** The open session's books and the limit it goes by stay within the given bound. */
  ghost predicate Within(w: World, c: Cluster, q: string, d: Dim, limit: nat)
    requires ValidWorld(w) && InfosOk(w, c.p.cache.infos)
  {
    Get(Opening(w, c, q), d) <= limit && OpenLimit(c, q, d) <= limit
  }

  lemma OpeningStep(w: World, c: Cluster, a: Step, q: string, d: Dim, limit: nat)
    requires ValidWorld(w) && Base(w, c) && Books(w, c) && Clusters.Enabled(w, c, a) && Steady(w, c, a)
    requires Within(w, c, q, d, limit) && (a.BeginSession? ==> LimitNow(c.p.cache, q, d) <= limit)
    ensures InfosOk(w, NextP(w, c, a).cache.infos) && Within(w, Clusters.Next(w, c, a), q, d, limit)
  {
    if a == BeginSession {
      OpeningBegins(w, c, q, d);
    } else if a == EndSession {
      OpeningEnds(w, c, q, d);
    } else if c.session.None? {
      OpeningIdles(w, c, a, q, d);
    } else {
      OpeningStays(w, c, a, q, d);
    }
  }

  /** The highest limit of the queue among the openings of sessions in the run. */
  ghost function HighestLimit(w: World, c: Cluster, steps: seq<Step>, q: string, d: Dim): nat
    requires Clusters.Legal(w, c, steps)
    decreases |steps|
  {
    if steps == [] then 0
    else
      Max(if steps[0].BeginSession? then LimitNow(c.p.cache, q, d) else 0,
          HighestLimit(w, Clusters.Next(w, c, steps[0]), steps[1..], q, d))
  }

  lemma {:induction false} CapacityAlong(w: World, c: Cluster, steps: seq<Step>, q: string, d: Dim, limit: nat)
    requires ValidWorld(w) && Base(w, c) && Books(w, c)
    requires Clusters.Legal(w, c, steps) && CalmRun(w, c, steps) && SteadyRun(w, c, steps)
    requires Within(w, c, q, d, limit) && HighestLimit(w, c, steps, q, d) <= limit
    ensures Base(w, Clusters.Exec(w, c, steps))
    ensures Get(LoadNow(w, Clusters.Exec(w, c, steps).p.cache.infos, q), d) <= limit
    decreases |steps|
  {
    if steps == [] {
      LoadBound(w, c, q, d);
    } else {
      var a := steps[0];
      BooksAskSuspended(w, c, a);
      BaseStep(w, c, a);
      BooksStep(w, c, a);
      OpeningStep(w, c, a, q, d, limit);
      CapacityAlong(w, Clusters.Next(w, c, a), steps[1..], q, d, limit);
    }
  }

  /** A start: no session, and every cached status agrees with the API. */
  ghost predicate Start(w: World, c: Cluster) {
    ValidWorld(w) && Base(w, c) && c.session == None
  }

  /** Capacity safety over whole concurrent runs: however sessions on snapshots interleave with
      changes of queues, clusters and classes, with events, workers and patch results, in no
      dimension does the summed request of a queue's cached bindings that are not suspended rise
      above the largest of what it was at the start and the queue's limits at the openings of
      sessions. */
  lemma CapacityIsSafe(w: World, c: Cluster, steps: seq<Step>, q: string, d: Dim)
    requires Start(w, c) && Clusters.Legal(w, c, steps) && CalmRun(w, c, steps) && SteadyRun(w, c, steps)
    ensures Base(w, Clusters.Exec(w, c, steps))
    ensures Get(LoadNow(w, Clusters.Exec(w, c, steps).p.cache.infos, q), d)
         <= Max(Get(LoadNow(w, c.p.cache.infos, q), d), HighestLimit(w, c, steps, q, d))
  {
    CapacityAlong(w, c, steps, q, d, Max(Get(LoadNow(w, c.p.cache.infos, q), d), HighestLimit(w, c, steps, q, d)));
  }

  // ----- what the API has let go -----

  /** The binding is in the API, and nothing keeps the scheduler from it. */
  predicate Released(c: Cluster, k: Key) {
    Live(c, k) && !SchedulingSuspended(Last(c.versions[k]))
  }

  /** Of the registered workloads' bindings, those released in the queue. */
  ghost function ReleasedIn(w: World, c: Cluster, q: string): set<UID> {
    set k |
      k in w.profiles && IsWorkload(w, k) && Released(c, k)
      && QueueOr(w.defaultQueue, w.profiles[k].queue) == q :: w.profiles[k].uid
  }

  lemma ReleasedIsActive(w: World, c: Cluster, k: Key)
    requires KeyOk(w, c, k) && Released(c, k) && IsWorkload(w, k)
    ensures Active(P.ViewOf(c.p, k))
  {
  }

  lemma ReleasedOccupies(w: World, c: Cluster, q: string)
    requires Base(w, c)
    ensures ReleasedIn(w, c, q) <= Occupants(w.defaultQueue, c.p.cache.infos, q)
  {
    forall u | u in ReleasedIn(w, c, q) ensures u in Occupants(w.defaultQueue, c.p.cache.infos, q) {
      var k :|
        && k in w.profiles && IsWorkload(w, k) && Released(c, k)
        && QueueOr(w.defaultQueue, w.profiles[k].queue) == q && w.profiles[k].uid == u;
      assert KeyOk(w, c, k);
      ReleasedIsActive(w, c, k);
      assert InfoOk(w, k, c.p.cache.infos[k]);
    }
  }

  /** The summed request of a queue's bindings of registered workloads that are in the API without
      suspension. */
  ghost function ReleasedLoad(w: World, c: Cluster, q: string): Resource
    requires ValidWorld(w)
  {
    assert ReleasedIn(w, c, q) <= Requested(w).Keys;
    Sum(ReleasedIn(w, c, q), Requested(w))
  }

  /** The same bound on what the scheduler sees, whatever the cache has heard of it yet. */
  lemma ReleasedIsSafe(w: World, c: Cluster, steps: seq<Step>, q: string, d: Dim)
    requires Start(w, c) && Clusters.Legal(w, c, steps) && CalmRun(w, c, steps) && SteadyRun(w, c, steps)
    ensures Get(ReleasedLoad(w, Clusters.Exec(w, c, steps), q), d)
         <= Max(Get(LoadNow(w, c.p.cache.infos, q), d), HighestLimit(w, c, steps, q, d))
  {
    var t := Clusters.Exec(w, c, steps);
    CapacityIsSafe(w, c, steps, q, d);
    ReleasedOccupies(w, t, q);
    OccupantsKnown(w, t.p.cache.infos, q);
    SumMonotone(ReleasedIn(w, t, q), Occupants(w.defaultQueue, t.p.cache.infos, q), Requested(w), d);
  }

  lemma LimitKept(w: World, c: Cluster, a: Step, q: string, d: Dim)
    requires Clusters.Enabled(w, c, a) && !a.Reconfigure?
    ensures LimitNow(NextP(w, c, a).cache, q, d) == LimitNow(c.p.cache, q, d)
  {
    match Clusters.Action(w, c, a) {
      case Some(x) => ConfigKept(c.p, x);
      case None =>
    }
  }

  lemma ConfigKept(s: P.State, x: P.Action)
    requires P.Enabled(s, x) && !x.ConfigChange?
    ensures P.NextCache(s.cache, x).queues == s.cache.queues && P.NextCache(s.cache, x).clusters == s.cache.clusters
  {
  }

  /** While queues and clusters stay as they are, the highest limit is the limit. */
  lemma {:induction false} FixedLimit(w: World, c: Cluster, steps: seq<Step>, q: string, d: Dim)
    requires Clusters.Legal(w, c, steps) && forall a | a in steps :: !a.Reconfigure?
    ensures HighestLimit(w, c, steps, q, d) <= LimitNow(c.p.cache, q, d)
    decreases |steps|
  {
    if steps != [] {
      LimitKept(w, c, steps[0], q, d);
      FixedLimit(w, Clusters.Next(w, c, steps[0]), steps[1..], q, d);
    }
  }

  datatype Config = Config(
    queues: map<string, QueueInfo>, clusters: map<string, Resource>, pcs: PriorityClasses.ClassState)

  /** Nothing created, cached, asked for or under way. */
  ghost function Empty(w: World, g: Config): Cluster {
    Cluster(
      P.State(CacheState(w.defaultQueue, g.queues, g.clusters, g.pcs, map[], map[], WQ.NO_WORK),
              multiset{}, map[], map[], map[]),
      map[], map[], {}, {}, None)
  }

  lemma EmptyIsStart(w: World, g: Config)
    requires ValidWorld(w) && ProperQueues(g.queues)
    ensures Start(w, Empty(w, g))
  {
    var c := Empty(w, g);
    assert P.Inv(c.p) by {
      forall k ensures P.KeyInv(P.ViewOf(c.p, k)) {
      }
    }
  }
}
