/** When a snapshot hides load from the session that works on it. */
module HiddenLoad {
  import opened Resources
  import opened Api
  import opened CacheModel
  import opened Sessions

  /** What a session opened on a snapshot of the cache has allocated in the queue. */
  ghost function SessionLoad(c: CacheState, q: string): Resource
    requires UniqueUids(c.infos)
  {
    Load(TakeSnapshot(c), TakeSnapshot(c).infos, q)
  }

  /** Occupies the queue, but names a priority class the cache does not have. */
  predicate Overlooked(c: CacheState, q: string, k: Key) {
    Occupies(c.defaultQueue, c.infos, q, k) && Skipped(c.pcs, c.infos[k])
  }

  ghost function Counted(c: CacheState, q: string): set<UID>
    requires UniqueUids(c.infos)
  {
    Occupying(TakeSnapshot(c), TakeSnapshot(c).infos, q)
  }

  ghost function OverlookedUids(c: CacheState, q: string): set<UID> {
    set k | k in c.infos && Overlooked(c, q, k) :: UidAt(c.infos, k)
  }

  lemma SnapshotHas(c: CacheState, k: Key)
    requires UniqueUids(c.infos) && k in c.infos
    ensures UidAt(c.infos, k) in TakeSnapshot(c).infos <==> !Skipped(c.pcs, c.infos[k])
    ensures UidAt(c.infos, k) in TakeSnapshot(c).infos ==>
              TakeSnapshot(c).infos[UidAt(c.infos, k)] == ResolvePriority(c.pcs, c.infos[k])
  {
    SnapshotIsTaken(c, UidAt(c.infos, k));
    TakenAt(c.pcs, c.infos, c.infos.Keys, k);
  }

  lemma ResolvedKeeps(c: CacheState, k: Key)
    requires k in c.infos
    ensures var b := ResolvePriority(c.pcs, c.infos[k]);
            b.status == c.infos[k].status && b.queue == c.infos[k].queue && Request(b) == Request(c.infos[k])
  {
  }

  lemma RequestCached(c: CacheState, k: Key)
    requires UniqueUids(c.infos) && k in c.infos
    ensures UidAt(c.infos, k) in CachedRequests(c.infos)
    ensures CachedRequests(c.infos)[UidAt(c.infos, k)] == Request(c.infos[k])
  {
  }

  /** A binding is counted, with its cached request, iff it occupies the queue and is not overlooked. */
  lemma CountedExactly(c: CacheState, q: string, k: Key)
    requires UniqueUids(c.infos) && k in c.infos
    ensures UidAt(c.infos, k) in Counted(c, q) <==> Occupies(c.defaultQueue, c.infos, q, k) && !Overlooked(c, q, k)
    ensures UidAt(c.infos, k) in Counted(c, q) ==>
              && UidAt(c.infos, k) in CachedRequests(c.infos)
              && Requests(TakeSnapshot(c).infos)[UidAt(c.infos, k)] == CachedRequests(c.infos)[UidAt(c.infos, k)]
  {
    SnapshotHas(c, k);
    ResolvedKeeps(c, k);
    RequestCached(c, k);
  }

  lemma OccupantExactly(c: CacheState, q: string, k: Key)
    requires UniqueUids(c.infos) && k in c.infos
    ensures UidAt(c.infos, k) in Occupants(c.defaultQueue, c.infos, q) <==> Occupies(c.defaultQueue, c.infos, q, k)
    ensures UidAt(c.infos, k) in OverlookedUids(c, q) <==> Overlooked(c, q, k)
  {
    var u := UidAt(c.infos, k);
    if u in Occupants(c.defaultQueue, c.infos, q) {
      var j :| j in c.infos && Occupies(c.defaultQueue, c.infos, q, j) && UidAt(c.infos, j) == u;
    }
    if u in OverlookedUids(c, q) {
      var j :| j in c.infos && Overlooked(c, q, j) && UidAt(c.infos, j) == u;
    }
  }

  lemma KeyOfUid(c: CacheState, q: string, u: UID) returns (k: Key)
    requires UniqueUids(c.infos)
    requires u in Counted(c, q) || u in Occupants(c.defaultQueue, c.infos, q) || u in OverlookedUids(c, q)
    ensures k in c.infos && UidAt(c.infos, k) == u
  {
    k :| k in c.infos && UidAt(c.infos, k) == u;
  }

  lemma OccupantsSplit(c: CacheState, q: string)
    requires UniqueUids(c.infos)
    ensures Counted(c, q) !! OverlookedUids(c, q)
    ensures Counted(c, q) + OverlookedUids(c, q) == Occupants(c.defaultQueue, c.infos, q)
  {
    forall u
      ensures !(u in Counted(c, q) && u in OverlookedUids(c, q))
      ensures u in Counted(c, q) + OverlookedUids(c, q) <==> u in Occupants(c.defaultQueue, c.infos, q)
    {
      if u in Counted(c, q) || u in OverlookedUids(c, q) || u in Occupants(c.defaultQueue, c.infos, q) {
        var k := KeyOfUid(c, q, u);
        CountedExactly(c, q, k);
        OccupantExactly(c, q, k);
      }
    }
  }

  lemma CountedLoad(c: CacheState, q: string)
    requires UniqueUids(c.infos)
    ensures Counted(c, q) <= CachedRequests(c.infos).Keys
    ensures SessionLoad(c, q) == Sum(Counted(c, q), CachedRequests(c.infos))
  {
    forall u | u in Counted(c, q)
      ensures u in CachedRequests(c.infos) && Requests(TakeSnapshot(c).infos)[u] == CachedRequests(c.infos)[u]
    {
      var k := KeyOfUid(c, q, u);
      CountedExactly(c, q, k);
    }
    SumAgrees(Counted(c, q), Requests(TakeSnapshot(c).infos), CachedRequests(c.infos));
  }

  lemma OverlookedRequests(c: CacheState, q: string, d: Dim)
    requires UniqueUids(c.infos)
    ensures OverlookedUids(c, q) <= CachedRequests(c.infos).Keys
    ensures (forall u | u in OverlookedUids(c, q) :: Get(CachedRequests(c.infos)[u], d) == 0)
       <==> (forall k | k in c.infos && Overlooked(c, q, k) :: Get(Request(c.infos[k]), d) == 0)
  {
    forall k | k in c.infos && Overlooked(c, q, k)
      ensures UidAt(c.infos, k) in OverlookedUids(c, q)
      ensures CachedRequests(c.infos)[UidAt(c.infos, k)] == Request(c.infos[k])
    {
      RequestCached(c, k);
    }
    if forall k | k in c.infos && Overlooked(c, q, k) :: Get(Request(c.infos[k]), d) == 0 {
      forall u | u in OverlookedUids(c, q) ensures Get(CachedRequests(c.infos)[u], d) == 0 {
        var k :| k in c.infos && Overlooked(c, q, k) && UidAt(c.infos, k) == u;
        RequestCached(c, k);
      }
    }
  }

  /** A session opens on the full load of a queue in a dimension if and only if no binding that
      occupies the queue and names a priority class the cache does not have asks for any of it;
      otherwise it opens on less. */
  lemma SnapshotCountsExactly(c: CacheState, q: string, d: Dim)
    requires UniqueUids(c.infos)
    ensures Get(SessionLoad(c, q), d) <= Get(FullLoad(c.defaultQueue, c.infos, q), d)
    ensures Get(SessionLoad(c, q), d) == Get(FullLoad(c.defaultQueue, c.infos, q), d)
       <==> forall k | k in c.infos && Overlooked(c, q, k) :: Get(Request(c.infos[k]), d) == 0
  {
    OccupantsSplit(c, q);
    OccupantsCached(c.defaultQueue, c.infos, q);
    CountedLoad(c, q);
    SumUnion(Counted(c, q), OverlookedUids(c, q), CachedRequests(c.infos), d);
    SumZero(OverlookedUids(c, q), CachedRequests(c.infos), d);
    OverlookedRequests(c, q, d);
  }
}
