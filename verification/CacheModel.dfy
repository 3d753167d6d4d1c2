/** The dispatcher cache as a value, and what each of its lock-protected operations does to it. */
module CacheModel {
  import opened Resources
  import opened Api
  import opened PriorityClasses
  import WQ = WorkQueues

  datatype CacheState = CacheState(
    defaultQueue: string,
    queues: map<string, QueueInfo>,
    clusters: map<string, Resource>,
    pcs: ClassState,
    bindings: map<Key, ResourceBinding>,
    infos: map<Key, ResourceBindingInfo>,
    tasks: WQ.WorkQueue)

  /** What looking up a binding's workload can answer: its API version does not parse, its
      kind is not registered, the resource cannot be fetched, it cannot be converted, or the
      queue and priority class it names. */
  datatype WorkloadLookup =
    | ParseError
    | NotWorkload
    | FetchError
    | ConvertError
    | Workload(queueName: string, priorityClassName: string)

  /** A new info takes its status from the spec. */
  function NewInfo(rb: ResourceBinding, queueName: string, priorityClassName: string): ResourceBindingInfo {
    ResourceBindingInfo(rb, rb.resource.uid, queueName, priorityClassName,
                        if SchedulingSuspended(rb.suspension) then Suspended else UnSuspended, 0)
  }

  function SetResourceBinding(c: CacheState, rb: ResourceBinding, w: WorkloadLookup): CacheState {
    if w.Workload? then
      c.(bindings := c.bindings[rb.key := rb],
         infos := c.infos[rb.key := NewInfo(rb, w.queueName, w.priorityClassName)])
    else c
  }

  function DeleteResourceBinding(c: CacheState, k: Key): CacheState {
    c.(bindings := c.bindings - {k}, infos := c.infos - {k})
  }

  predicate HasStatus(c: CacheState, k: Key, status: DispatchStatus) {
    k in c.infos && c.infos[k].status == status
  }

  function SetStatus(c: CacheState, k: Key, status: DispatchStatus): CacheState {
    if k in c.infos then c.(infos := c.infos[k := c.infos[k].(status := status)]) else c
  }

  function UnSuspend(c: CacheState, k: Key): CacheState {
    if k in c.infos then SetStatus(c, k, UnSuspending).(tasks := WQ.Add(c.tasks, k)) else c
  }

  /** After a failed patch the binding waits for the next dispatch. */
  function Recover(c: CacheState, k: Key): CacheState {
    SetStatus(c, k, Suspended)
  }

  function UnSuspendAll(c: CacheState, ks: seq<Key>): CacheState {
    if ks == [] then c else UnSuspend(UnSuspendAll(c, ks[..|ks| - 1]), ks[|ks| - 1])
  }

  // ----- snapshot -----

  /** A binding whose priority class is not in the cache is left out of the snapshot. */
  predicate Skipped(pcs: ClassState, b: ResourceBindingInfo) {
    b.priorityClassName != "" && b.priorityClassName !in pcs.classes
  }

  /** The class decides, else the default class, else the old priority stays. */
  function ResolvePriority(pcs: ClassState, b: ResourceBindingInfo): ResourceBindingInfo {
    if b.priorityClassName != "" then
      if b.priorityClassName in pcs.classes then b.(priority := pcs.classes[b.priorityClassName].value) else b
    else if pcs.fallback.Some? then b.(priority := pcs.fallback.value.value)
    else b
  }

  /** Taking a snapshot also writes the priorities into the cache. */
  function WithPriorities(c: CacheState): CacheState {
    c.(infos := map k | k in c.infos :: ResolvePriority(c.pcs, c.infos[k]))
  }

  function UidAt(infos: map<Key, ResourceBindingInfo>, k: Key): UID
    requires k in infos
  {
    infos[k].rb.uid
  }

  ghost predicate UniqueUids(infos: map<Key, ResourceBindingInfo>) {
    forall j, k {:trigger UidAt(infos, j), UidAt(infos, k)} |
      j in infos && k in infos && UidAt(infos, j) == UidAt(infos, k) :: j == k
  }

  ghost function SnapshotInfos(c: CacheState): map<UID, ResourceBindingInfo>
    requires UniqueUids(c.infos)
  {
    map k | k in c.infos && !Skipped(c.pcs, c.infos[k]) :: UidAt(c.infos, k) := ResolvePriority(c.pcs, c.infos[k])
  }

  /** The cached infos, and the snapshot's, when the given keys have been visited. */
  ghost function Visited(pcs: ClassState, infos: map<Key, ResourceBindingInfo>,
                         seen: set<Key>): map<Key, ResourceBindingInfo>
  {
    map k | k in infos :: if k in seen then ResolvePriority(pcs, infos[k]) else infos[k]
  }

  ghost function Taken(pcs: ClassState, infos: map<Key, ResourceBindingInfo>,
                       seen: set<Key>): map<UID, ResourceBindingInfo>
    requires UniqueUids(infos)
  {
    map k | k in infos && k in seen && !Skipped(pcs, infos[k]) :: UidAt(infos, k) := ResolvePriority(pcs, infos[k])
  }

  lemma VisitedNext(pcs: ClassState, infos: map<Key, ResourceBindingInfo>, seen: set<Key>, k: Key)
    requires k in infos && k !in seen
    ensures Visited(pcs, infos, seen)[k] == infos[k]
    ensures Visited(pcs, infos, seen + {k}) == Visited(pcs, infos, seen)[k := ResolvePriority(pcs, infos[k])]
  {
  }

  lemma TakenAt(pcs: ClassState, infos: map<Key, ResourceBindingInfo>, seen: set<Key>, k: Key)
    requires UniqueUids(infos) && k in infos
    ensures UidAt(infos, k) in Taken(pcs, infos, seen) <==> k in seen && !Skipped(pcs, infos[k])
    ensures UidAt(infos, k) in Taken(pcs, infos, seen) ==>
              Taken(pcs, infos, seen)[UidAt(infos, k)] == ResolvePriority(pcs, infos[k])
  {
  }

  lemma TakenFrom(pcs: ClassState, infos: map<Key, ResourceBindingInfo>, seen: set<Key>, u: UID) returns (k: Key)
    requires UniqueUids(infos) && u in Taken(pcs, infos, seen)
    ensures k in infos && k in seen && UidAt(infos, k) == u
  {
    k :| k in infos && k in seen && !Skipped(pcs, infos[k]) && UidAt(infos, k) == u;
  }

  lemma TakenNext(pcs: ClassState, infos: map<Key, ResourceBindingInfo>, seen: set<Key>, k: Key)
    requires UniqueUids(infos) && k in infos && k !in seen
    ensures Taken(pcs, infos, seen + {k})
         == if Skipped(pcs, infos[k]) then Taken(pcs, infos, seen)
            else Taken(pcs, infos, seen)[UidAt(infos, k) := ResolvePriority(pcs, infos[k])]
  {
    var before, l := Taken(pcs, infos, seen), Taken(pcs, infos, seen + {k});
    var r := if Skipped(pcs, infos[k]) then before else before[UidAt(infos, k) := ResolvePriority(pcs, infos[k])];
    TakenAt(pcs, infos, seen + {k}, k);
    forall u ensures (u in l <==> u in r) && (u in l ==> l[u] == r[u]) {
      if u in l {
        var j := TakenFrom(pcs, infos, seen + {k}, u);
        TakenAt(pcs, infos, seen, j);
        TakenAt(pcs, infos, seen + {k}, j);
      }
      if u in before {
        var j := TakenFrom(pcs, infos, seen, u);
        TakenAt(pcs, infos, seen + {k}, j);
      }
    }
  }

  lemma NoneTaken(pcs: ClassState, infos: map<Key, ResourceBindingInfo>)
    requires UniqueUids(infos)
    ensures Visited(pcs, infos, {}) == infos && Taken(pcs, infos, {}) == map[]
  {
  }

  lemma SnapshotIsTaken(c: CacheState, u: UID)
    requires UniqueUids(c.infos)
    ensures u in Taken(c.pcs, c.infos, c.infos.Keys) <==> u in SnapshotInfos(c)
    ensures u in SnapshotInfos(c) ==> Taken(c.pcs, c.infos, c.infos.Keys)[u] == SnapshotInfos(c)[u]
  {
    if u in SnapshotInfos(c) {
      var k :| k in c.infos && !Skipped(c.pcs, c.infos[k]) && UidAt(c.infos, k) == u;
      TakenAt(c.pcs, c.infos, c.infos.Keys, k);
    }
    if u in Taken(c.pcs, c.infos, c.infos.Keys) {
      var k := TakenFrom(c.pcs, c.infos, c.infos.Keys, u);
      TakenAt(c.pcs, c.infos, c.infos.Keys, k);
    }
  }

  lemma AllTaken(c: CacheState)
    requires UniqueUids(c.infos)
    ensures Visited(c.pcs, c.infos, c.infos.Keys) == WithPriorities(c).infos
    ensures Taken(c.pcs, c.infos, c.infos.Keys) == SnapshotInfos(c)
  {
    var l, r := Taken(c.pcs, c.infos, c.infos.Keys), SnapshotInfos(c);
    forall u ensures (u in l <==> u in r) && (u in l ==> l[u] == r[u]) {
      SnapshotIsTaken(c, u);
    }
  }

  ghost function TakeSnapshot(c: CacheState): Snapshot
    requires UniqueUids(c.infos)
  {
    Snapshot(c.defaultQueue, c.queues, SnapshotInfos(c), Sum(c.clusters.Keys, c.clusters))
  }

  /** The priority a binding has once a snapshot is taken: its class's value if the class is stored,
      the default's if it names no class and there is a default, and otherwise the one it had. */
  predicate PriorityIs(pcs: ClassState, b: ResourceBindingInfo, priority: int) {
    if b.priorityClassName != "" && b.priorityClassName in pcs.classes then
      priority == pcs.classes[b.priorityClassName].value
    else if b.priorityClassName == "" && pcs.fallback.Some? then priority == pcs.fallback.value.value
    else priority == b.priority
  }

  /** The same binding but for the priority, which is as it should be. */
  predicate Prioritized(pcs: ClassState, before: ResourceBindingInfo, after: ResourceBindingInfo) {
    after == before.(priority := after.priority) && PriorityIs(pcs, before, after.priority)
  }

  lemma ResolvedIsPrioritized(pcs: ClassState, b: ResourceBindingInfo)
    ensures Prioritized(pcs, b, ResolvePriority(pcs, b))
  {
  }

  /** What taking a snapshot writes into the cache: the priorities, and nothing else. */
  lemma PrioritiesMeaning(c: CacheState, k: Key)
    ensures WithPriorities(c) == c.(infos := WithPriorities(c).infos) && WithPriorities(c).infos.Keys == c.infos.Keys
    ensures k in c.infos ==> Prioritized(c.pcs, c.infos[k], WithPriorities(c).infos[k])
  {
    if k in c.infos {
      ResolvedIsPrioritized(c.pcs, c.infos[k]);
    }
  }

  /** What a snapshot holds: of the cached bindings those that name no class or a stored one, with
      the priority they should have, by UID; and nothing else. */
  lemma SnapshotMeaning(c: CacheState, u: UID)
    requires UniqueUids(c.infos)
    ensures u in TakeSnapshot(c).infos
       <==> exists k :: k in c.infos && c.infos[k].rb.uid == u
                        && (c.infos[k].priorityClassName == "" || c.infos[k].priorityClassName in c.pcs.classes)
    ensures u in TakeSnapshot(c).infos ==>
              exists k :: k in c.infos && c.infos[k].rb.uid == u
                          && Prioritized(c.pcs, c.infos[k], TakeSnapshot(c).infos[u])
    ensures TakeSnapshot(c).defaultQueue == c.defaultQueue && TakeSnapshot(c).queues == c.queues
    ensures TakeSnapshot(c).total == Sum(c.clusters.Keys, c.clusters)
  {
    if u in TakeSnapshot(c).infos {
      var k :| k in c.infos && !Skipped(c.pcs, c.infos[k]) && UidAt(c.infos, k) == u;
      ResolvedIsPrioritized(c.pcs, c.infos[k]);
    }
    if k :| k in c.infos && c.infos[k].rb.uid == u
            && (c.infos[k].priorityClassName == "" || c.infos[k].priorityClassName in c.pcs.classes) {
      assert UidAt(c.infos, k) == u && !Skipped(c.pcs, c.infos[k]);
    }
  }

  /** What is stored of an update: both indexes under its key and nothing else; the record carries what
      the workload names, and waits exactly if the spec suspends its scheduling. */
  lemma StoredMeaning(c: CacheState, rb: ResourceBinding, queue: string, priorityClass: string)
    ensures var after := SetResourceBinding(c, rb, Workload(queue, priorityClass));
            && after == c.(bindings := after.bindings, infos := after.infos)
            && after.bindings == c.bindings[rb.key := rb]
            && after.infos.Keys == c.infos.Keys + {rb.key}
            && (forall k | k in c.infos && k != rb.key :: after.infos[k] == c.infos[k])
            && var b := after.infos[rb.key];
               && b.rb == rb && b.resourceUID == rb.resource.uid && b.queue == queue
               && b.priorityClassName == priorityClass && b.priority == 0
               && b.status == if rb.suspension.Some? && rb.suspension.value.scheduling == Some(true) then Suspended
                              else UnSuspended
  {
  }

  // ----- the load of a queue -----

  predicate Occupies(defaultQueue: string, infos: map<Key, ResourceBindingInfo>, q: string, k: Key) {
    k in infos && infos[k].status != Suspended && QueueOf(defaultQueue, infos[k]) == q
  }

  /** The cached bindings of a queue that are not suspended. */
  ghost function Occupants(defaultQueue: string, infos: map<Key, ResourceBindingInfo>, q: string): set<UID> {
    set k | k in infos && Occupies(defaultQueue, infos, q, k) :: UidAt(infos, k)
  }

  ghost function CachedRequests(infos: map<Key, ResourceBindingInfo>): map<UID, Resource>
    requires UniqueUids(infos)
  {
    map k | k in infos :: UidAt(infos, k) := Request(infos[k])
  }

  lemma OccupantsCached(defaultQueue: string, infos: map<Key, ResourceBindingInfo>, q: string)
    requires UniqueUids(infos)
    ensures Occupants(defaultQueue, infos, q) <= CachedRequests(infos).Keys
  {
    forall u | u in Occupants(defaultQueue, infos, q) ensures u in CachedRequests(infos) {
      var k :| k in infos && Occupies(defaultQueue, infos, q, k) && UidAt(infos, k) == u;
    }
  }

  /** The summed request of the cached bindings of a queue that are not suspended. */
  ghost function FullLoad(defaultQueue: string, infos: map<Key, ResourceBindingInfo>, q: string): Resource
    requires UniqueUids(infos)
  {
    OccupantsCached(defaultQueue, infos, q);
    Sum(Occupants(defaultQueue, infos, q), CachedRequests(infos))
  }

  // ----- the twin index -----

  /** The two indexes hold the same keys, and each info wraps the binding stored under its own
      namespace and name. */
  ghost predicate Twins(bindings: map<Key, ResourceBinding>, infos: map<Key, ResourceBindingInfo>) {
    && bindings.Keys == infos.Keys
    && forall k | k in infos :: infos[k].rb == bindings[k] && bindings[k].key == k
  }

  ghost predicate TwinIndex(c: CacheState) {
    Twins(c.bindings, c.infos)
  }

  lemma SetKeepsTwinIndex(c: CacheState, rb: ResourceBinding, w: WorkloadLookup)
    requires TwinIndex(c)
    ensures TwinIndex(SetResourceBinding(c, rb, w))
  {
  }

  lemma DeleteKeepsTwinIndex(c: CacheState, k: Key)
    requires TwinIndex(c)
    ensures TwinIndex(DeleteResourceBinding(c, k))
  {
  }

  lemma StatusKeepsTwinIndex(c: CacheState, k: Key, s: DispatchStatus)
    requires TwinIndex(c)
    ensures TwinIndex(SetStatus(c, k, s)) && TwinIndex(UnSuspend(c, k))
  {
    assert k in c.infos ==> c.infos[k := c.infos[k].(status := s)].Keys == c.infos.Keys;
    assert k in c.infos ==> c.infos[k := c.infos[k].(status := UnSuspending)].Keys == c.infos.Keys;
  }

  lemma SnapshotKeepsTwinIndex(c: CacheState)
    requires TwinIndex(c)
    ensures TwinIndex(WithPriorities(c))
  {
  }

  predicate ProperQueues(queues: map<string, QueueInfo>) {
    forall n | n in queues :: n != "" && queues[n].name == n && queues[n].uid == n
  }

  ghost predicate ValidQueues(c: CacheState) {
    ProperQueues(c.queues)
  }

  lemma SnapshotIsValid(c: CacheState)
    requires UniqueUids(c.infos) && TwinIndex(c) && ValidQueues(c)
    ensures ValidSnapshot(TakeSnapshot(c))
  {
    var ss := TakeSnapshot(c);
    forall u | u in ss.infos
      ensures ss.infos[u].rb.uid == u && ss.infos[u].rb.key in c.infos && c.infos[ss.infos[u].rb.key].rb.uid == u
    {
      var k :| k in c.infos && !Skipped(c.pcs, c.infos[k]) && c.infos[k].rb.uid == u;
    }
  }

  /** A run of unsuspend requests touches statuses only at the keys asked for. */
  lemma {:induction false} UnSuspendAllTouches(c: CacheState, ks: seq<Key>, k: Key)
    ensures UnSuspendAll(c, ks).infos.Keys == c.infos.Keys && UnSuspendAll(c, ks).bindings == c.bindings
    ensures k in c.infos ==>
              UnSuspendAll(c, ks).infos[k] == if k in ks then c.infos[k].(status := UnSuspending) else c.infos[k]
  {
    if ks != [] {
      var init := ks[..|ks| - 1];
      assert ks == init + [ks[|ks| - 1]];
      UnSuspendAllTouches(c, init, k);
    }
  }
}
