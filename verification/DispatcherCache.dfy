/** The dispatcher cache as an object: its fields are written in place, and every method is one
    section under the mutex. Contents is the cache as a value; the protocol and the system are
    modelled on those values. */
module DispatcherCaches {
  import opened Resources
  import opened Api
  import opened NestedMaps
  import opened Records
  import opened PriorityClasses
  import opened CacheModel
  import P = Protocol
  import WQ = WorkQueues

  /** Whose sections are not the dispatcher thread's: informer events and workers. */
  predicate ByOthers(a: P.Action) {
    !a.TakeSnapshot? && !a.CallUnSuspend?
  }

  /** What a section does to the cache; a worker that finds no task waits. */
  function Effect(c: CacheState, a: P.Action): CacheState {
    if a.WorkerGet? && c.tasks.queue == [] then c else P.NextCache(c, a)
  }

  /** One key in both indexes: a binding stored under its own key and a record that wraps it, or
      neither; and what the two show. */
  ghost predicate Entry(stored: Nested<ResourceBinding>, cells: Nested<Info>, records: set<Info>,
                        bindings: map<Key, ResourceBinding>, infos: map<Key, ResourceBindingInfo>, k: Key)
    reads records
  {
    && (k in bindings <==> Has(stored, k)) && (k in infos <==> Has(cells, k)) && (k in bindings <==> k in infos)
    && (k in infos ==>
          && bindings[k] == At(stored, k) && bindings[k].key == k
          && At(cells, k) in records && At(cells, k).rb == bindings[k] && At(cells, k).Value() == infos[k])
  }

  class DispatcherCache {
    const defaultQueue: string
    var queues: map<string, QueueInfo>
    var clusters: map<string, Resource>
    var priorityClasses: map<string, PriorityClass>
    var defaultPriorityClass: Option<PriorityClass>
    var resourceBindings: Nested<ResourceBinding>
    var resourceBindingInfos: Nested<Info>
    var unSuspendRBTaskQueue: WQ.WorkQueue

    /** The two indexes by key, and all records that were ever cached. */
    ghost var bindings: map<Key, ResourceBinding>
    ghost var infos: map<Key, ResourceBindingInfo>
    ghost var records: set<Info>

    ghost predicate EntryOk(k: Key)
      reads `resourceBindings, `resourceBindingInfos, `records, `bindings, `infos, records
    {
      Entry(resourceBindings, resourceBindingInfos, records, bindings, infos, k)
    }

    ghost predicate Valid()
      reads `resourceBindings, `resourceBindingInfos, `records, `bindings, `infos, records
    {
      forall k :: EntryOk(k)
    }

    ghost function Contents(): CacheState
      reads this
    {
      CacheState(defaultQueue, queues, clusters, ClassState(priorityClasses, defaultPriorityClass),
                 bindings, infos, unSuspendRBTaskQueue)
    }

    lemma IndexesAgree()
      requires Valid()
      ensures TwinIndex(Contents())
    {
      forall k
        ensures (k in bindings <==> k in infos) && (k in infos ==> infos[k].rb == bindings[k] && bindings[k].key == k)
      {
        assert EntryOk(k);
      }
    }

    constructor (defaultQueue: string)
      ensures Valid() && records == {}
      ensures Contents() == CacheState(defaultQueue, map[], map[], NO_CLASSES, map[], map[], WQ.NO_WORK)
    {
      this.defaultQueue := defaultQueue;
      queues, clusters := map[], map[];
      priorityClasses, defaultPriorityClass := map[], None;
      resourceBindings, resourceBindingInfos := map[], map[];
      unSuspendRBTaskQueue := WQ.NO_WORK;
      bindings, infos, records := map[], map[], {};
    }

    // ----- event handlers -----

    /** Store a binding and a new record for it. */
    method Store(rb: ResourceBinding, info: ResourceBindingInfo)
      requires Valid() && info.rb == rb
      modifies `resourceBindings, `resourceBindingInfos, `records, `bindings, `infos
      ensures Valid() && fresh(records - old(records))
      ensures bindings == old(bindings)[rb.key := rb] && infos == old(infos)[rb.key := info]
    {
      var cell := new Info(info);
      resourceBindings := Put(resourceBindings, rb.key, rb);
      resourceBindingInfos := Put(resourceBindingInfos, rb.key, cell);
      bindings, infos, records := bindings[rb.key := rb], infos[rb.key := info], records + {cell};
      forall j ensures EntryOk(j) {
        assert old(EntryOk(j));
        PutGet(old(resourceBindings), rb.key, rb, j);
        PutGet(old(resourceBindingInfos), rb.key, cell, j);
      }
    }

    /** A binding that is not a fetched and converted workload leaves the cache as it is. */
    method SetResourceBinding(rb: ResourceBinding, w: WorkloadLookup)
      requires Valid()
      modifies this
      ensures Valid() && fresh(records - old(records))
      ensures Contents() == CacheModel.SetResourceBinding(old(Contents()), rb, w)
    {
      match w {
        case Workload(queueName, priorityClassName) =>
          var status := UnSuspended;
          if SchedulingSuspended(rb.suspension) {
            status := Suspended;
          }
          Store(rb, ResourceBindingInfo(rb, rb.resource.uid, queueName, priorityClassName, status, 0));
        case _ =>
      }
    }

    method AddResourceBinding(rb: ResourceBinding, w: WorkloadLookup)
      requires Valid()
      modifies this
      ensures Valid() && fresh(records - old(records))
      ensures Contents() == CacheModel.SetResourceBinding(old(Contents()), rb, w)
    {
      SetResourceBinding(rb, w);
    }

    /** An update that carries the same resource version again is ignored. */
    method UpdateResourceBinding(oldVersion: string, newVersion: string, rb: ResourceBinding, w: WorkloadLookup)
      requires Valid()
      modifies this
      ensures Valid() && fresh(records - old(records))
      ensures Contents() == if oldVersion == newVersion then old(Contents())
                            else CacheModel.SetResourceBinding(old(Contents()), rb, w)
    {
      if oldVersion == newVersion {
        return;
      }
      SetResourceBinding(rb, w);
    }

    /** Deletes from both indexes, unless the namespace is unknown: then it is in neither. */
    method DeleteResourceBinding(k: Key)
      requires Valid()
      modifies this
      ensures Valid() && records == old(records)
      ensures Contents() == CacheModel.DeleteResourceBinding(old(Contents()), k)
    {
      assert EntryOk(k);
      if k.ns !in resourceBindings {
        assert bindings - {k} == bindings && infos - {k} == infos;
        return;
      }
      resourceBindings := Delete(resourceBindings, k);
      resourceBindingInfos := Delete(resourceBindingInfos, k);
      bindings, infos := bindings - {k}, infos - {k};
      forall j ensures EntryOk(j) {
        assert old(EntryOk(j));
        DeleteGet(old(resourceBindings), k, j);
        DeleteGet(old(resourceBindingInfos), k, j);
      }
    }

    method SetPriorityClass(pc: PriorityClass)
      requires Valid()
      modifies `priorityClasses, `defaultPriorityClass
      ensures Valid()
      ensures Contents() == old(Contents()).(pcs := PriorityClasses.SetPriorityClass(old(Contents()).pcs, pc))
    {
      if pc.globalDefault {
        defaultPriorityClass := Some(pc);
      }
      priorityClasses := priorityClasses[pc.name := pc];
    }

    method AddPriorityClass(pc: PriorityClass)
      requires Valid()
      modifies `priorityClasses, `defaultPriorityClass
      ensures Valid() && Contents() == old(Contents()).(pcs := Apply(old(Contents()).pcs, AddClass(pc)))
    {
      SetPriorityClass(pc);
    }

    method DeletePriorityClass(pc: PriorityClass)
      requires Valid()
      modifies `priorityClasses, `defaultPriorityClass
      ensures Valid() && Contents() == old(Contents()).(pcs := Apply(old(Contents()).pcs, DeleteClass(pc)))
    {
      if pc.globalDefault {
        defaultPriorityClass := None;
      }
      priorityClasses := priorityClasses - {pc.name};
    }

    method UpdatePriorityClass(o: PriorityClass, n: PriorityClass)
      requires Valid()
      modifies `priorityClasses, `defaultPriorityClass
      ensures Valid() && Contents() == old(Contents()).(pcs := Apply(old(Contents()).pcs, UpdateClass(o, n)))
    {
      if o.resourceVersion == n.resourceVersion {
        return;
      }
      if o.globalDefault {
        defaultPriorityClass := None;
      }
      SetPriorityClass(n);
    }

    // ----- unsuspending -----

    /** Write a record's status in place. */
    method WriteStatus(k: Key, status: DispatchStatus)
      requires Valid() && Has(resourceBindingInfos, k)
      modifies `infos, records
      ensures Valid() && Contents() == SetStatus(old(Contents()), k, status)
    {
      assert EntryOk(k);
      var rbi := At(resourceBindingInfos, k);
      rbi.status := status;
      infos := infos[k := infos[k].(status := status)];
      forall j ensures EntryOk(j) {
        assert old(EntryOk(j));
      }
    }

    method UnSuspendResourceBinding(k: Key)
      requires Valid()
      modifies `unSuspendRBTaskQueue, `infos, records
      ensures Valid() && Contents() == UnSuspend(old(Contents()), k)
    {
      assert EntryOk(k);
      if !Has(resourceBindingInfos, k) {
        return;
      }
      WriteStatus(k, UnSuspending);
      unSuspendRBTaskQueue := WQ.Add(unSuspendRBTaskQueue, k);
    }

    /** A worker receives the oldest task. */
    method GetTask() returns (k: Key)
      requires Valid() && unSuspendRBTaskQueue.queue != []
      modifies `unSuspendRBTaskQueue
      ensures Valid() && k == old(unSuspendRBTaskQueue.queue[0])
      ensures Contents() == old(Contents()).(tasks := WQ.Get(old(Contents()).tasks))
    {
      k := unSuspendRBTaskQueue.queue[0];
      unSuspendRBTaskQueue := WQ.Get(unSuspendRBTaskQueue);
    }

    /** The worker patches what is cached under the key then; if nothing is, it leaves. */
    method LookUp(k: Key) returns (rb: Option<ResourceBinding>)
      requires Valid()
      ensures rb.Some? <==> k in Contents().infos
      ensures rb.Some? ==> k in Contents().bindings && rb.value == Contents().bindings[k]
    {
      assert EntryOk(k);
      if !Has(resourceBindingInfos, k) {
        return None;
      }
      rb := Some(At(resourceBindingInfos, k).rb);
    }

    /** After a failed patch. */
    method RecoverStatus(k: Key)
      requires Valid()
      modifies `infos, records
      ensures Valid() && Contents() == Recover(old(Contents()), k)
    {
      assert EntryOk(k);
      if Has(resourceBindingInfos, k) {
        WriteStatus(k, Suspended);
      }
    }

    method MarkDone(k: Key)
      requires Valid()
      modifies `unSuspendRBTaskQueue
      ensures Valid() && Contents() == old(Contents()).(tasks := WQ.Done(old(Contents()).tasks, k))
    {
      unSuspendRBTaskQueue := WQ.Done(unSuspendRBTaskQueue, k);
    }

    // ----- the sections of others -----

    method ChangeClass(event: ClassEvent)
      requires Valid()
      modifies `priorityClasses, `defaultPriorityClass
      ensures Valid() && Contents() == old(Contents()).(pcs := Apply(old(Contents()).pcs, event))
    {
      match event {
        case AddClass(pc) => AddPriorityClass(pc);
        case UpdateClass(o, n) => UpdatePriorityClass(o, n);
        case DeleteClass(pc) => DeletePriorityClass(pc);
      }
    }

    /** A worker's section, which does to the cache what the protocol says. */
    method Work(a: P.Action)
      requires Valid() && (a.WorkerGet? || a.WorkerLookup? || a.PatchReturns? || a.RecoverStatus? || a.MarkDone?)
      modifies `unSuspendRBTaskQueue, `infos, records
      ensures Valid() && Contents() == Effect(old(Contents()), a)
    {
      match a {
        case WorkerGet =>
          if unSuspendRBTaskQueue.queue != [] {
            var k := GetTask();
          }
        case WorkerLookup(k) => var rb := LookUp(k);
        case PatchReturns(_, _) =>
        case RecoverStatus(k) => RecoverStatus(k);
        case MarkDone(k) => MarkDone(k);
      }
    }

    /** Any section of anybody but the dispatcher thread does to the cache what the protocol says. */
    method Act(a: P.Action)
      requires Valid() && ByOthers(a)
      modifies this, records
      ensures Valid() && fresh(records - old(records))
      ensures Contents() == Effect(old(Contents()), a)
    {
      if a.SetBinding? {
        AddResourceBinding(a.rb, a.lookup);
      } else if a.DeleteBinding? {
        DeleteResourceBinding(a.key);
      } else if a.ClassChange? {
        ChangeClass(a.event);
      } else if a.ConfigChange? {
        queues, clusters := a.queues, a.clusters;
      } else {
        Work(a);
      }
    }

    // ----- snapshot -----

    method SumClusters() returns (total: Resource)
      ensures total == Sum(clusters.Keys, clusters)
    {
      total := EMPTY;
      var todo := clusters.Keys;
      ghost var done: set<string> := {};
      while todo != {}
        invariant todo + done == clusters.Keys && todo !! done && total == Sum(done, clusters)
        decreases todo
      {
        var name :| name in todo;
        SumPut(done, clusters, name);
        total := Add(total, clusters[name]);
        todo, done := todo - {name}, done + {name};
      }
      assert done == clusters.Keys;
    }

    /** One record of the loop: its priority is written in the cache, and a copy goes out. */
    method SnapshotInfo(k: Key, copies: map<UID, Info>, ghost own: set<Info>,
                        ghost values: map<UID, ResourceBindingInfo>)
      returns (copies': map<UID, Info>, ghost own': set<Info>)
      requires Valid() && Has(resourceBindingInfos, k) && k in infos
      requires own !! records && Copies(copies, own, values)
      modifies `infos, records
      ensures Valid() && infos == old(infos)[k := ResolvePriority(Contents().pcs, old(infos)[k])]
      ensures own <= own' && fresh(own' - own) && own' !! records
      ensures Copies(copies', own',
                     if Skipped(Contents().pcs, old(infos)[k]) then values
                     else values[UidAt(old(infos), k) := ResolvePriority(Contents().pcs, old(infos)[k])])
    {
      assert EntryOk(k);
      var rbi := At(resourceBindingInfos, k);
      copies', own' := copies, own;
      if rbi.priorityClassName != "" {
        if rbi.priorityClassName !in priorityClasses {
          return;
        }
        WritePriority(k, priorityClasses[rbi.priorityClassName].value);
      } else if defaultPriorityClass.Some? {
        WritePriority(k, defaultPriorityClass.value.value);
      }
      assert EntryOk(k);
      var copy := rbi.DeepCopy();
      copies', own' := copies[rbi.rb.uid := copy], own + {copy};
      ghost var after := values[rbi.rb.uid := infos[k]];
      forall u ensures Copy(copies', own', after, u) {
        assert Copy(copies, own, values, u);
      }
    }

    method WritePriority(k: Key, priority: int)
      requires Valid() && Has(resourceBindingInfos, k) && k in infos
      modifies `infos, records
      ensures Valid() && infos == old(infos)[k := old(infos)[k].(priority := priority)]
    {
      assert EntryOk(k);
      var rbi := At(resourceBindingInfos, k);
      rbi.priority := priority;
      infos := infos[k := infos[k].(priority := priority)];
      forall j ensures EntryOk(j) {
        assert old(EntryOk(j));
      }
    }

    /** In the loop over the records, when the given keys have been visited. */
    ghost predicate Visiting(before: map<Key, ResourceBindingInfo>, seen: set<Key>, copies: map<UID, Info>,
                             own: set<Info>)
      requires UniqueUids(before)
      reads this, records, own
    {
      && Valid() && own !! records
      && infos == Visited(Contents().pcs, before, seen)
      && Copies(copies, own, Taken(Contents().pcs, before, seen))
    }

    method Visit(k: Key, copies: map<UID, Info>, ghost own: set<Info>, ghost before: map<Key, ResourceBindingInfo>,
                 ghost seen: set<Key>)
      returns (copies': map<UID, Info>, ghost own': set<Info>)
      requires UniqueUids(before) && Visiting(before, seen, copies, own)
      requires k in before && k !in seen && Has(resourceBindingInfos, k)
      modifies `infos, records
      ensures Visiting(before, seen + {k}, copies', own') && own <= own' && fresh(own' - own)
    {
      VisitedNext(Contents().pcs, before, seen, k);
      TakenNext(Contents().pcs, before, seen, k);
      copies', own' := SnapshotInfo(k, copies, own, Taken(Contents().pcs, before, seen));
    }

    lemma NothingVisited()
      requires Valid() && UniqueUids(infos)
      ensures Visiting(infos, {}, map[], {})
    {
      NoneTaken(Contents().pcs, infos);
      forall u ensures Copy(map[], {}, map[], u) {
      }
    }

    lemma NamesOf(before: map<Key, ResourceBindingInfo>, k: Key)
      requires Valid() && before.Keys == infos.Keys
      ensures k in before <==> Has(resourceBindingInfos, k)
    {
      assert EntryOk(k);
    }

    lemma NoNameYet(before: map<Key, ResourceBindingInfo>, seen: set<Key>, ns: string)
      requires Valid() && before.Keys == infos.Keys && ns in resourceBindingInfos
      ensures seen + InNamespace(before, ns, resourceBindingInfos[ns].Keys) == seen
    {
      forall k | k in before && k.ns == ns ensures k.name in resourceBindingInfos[ns] {
        NamesOf(before, k);
      }
    }

    method CopyNamespace(ns: string, copies0: map<UID, Info>, ghost own0: set<Info>,
                         ghost before: map<Key, ResourceBindingInfo>, ghost seen0: set<Key>)
      returns (copies: map<UID, Info>, ghost own: set<Info>)
      requires UniqueUids(before) && Visiting(before, seen0, copies0, own0)
      requires ns in resourceBindingInfos && forall k | k in seen0 :: k.ns != ns
      modifies `infos, records
      ensures Visiting(before, seen0 + InNamespace(before, ns, {}), copies, own) && own0 <= own && fresh(own - own0)
    {
      copies, own := copies0, own0;
      var names := resourceBindingInfos[ns].Keys;
      NoNameYet(before, seen0, ns);
      while names != {}
        invariant names <= resourceBindingInfos[ns].Keys
        invariant Visiting(before, seen0 + InNamespace(before, ns, names), copies, own)
        invariant own0 <= own && fresh(own - own0)
        decreases names
      {
        var name :| name in names;
        NamesOf(before, Key(ns, name));
        NextName(before, seen0, ns, names, name);
        copies, own := Visit(Key(ns, name), copies, own, before, seen0 + InNamespace(before, ns, names));
        names := names - {name};
      }
    }

    method CopyInfos() returns (copies: map<UID, Info>, ghost own: set<Info>)
      requires Valid() && UniqueUids(infos)
      modifies `infos, records
      ensures Visiting(old(infos), old(infos).Keys, copies, own) && fresh(own)
    {
      copies, own := map[], {};
      ghost var before := infos;
      NothingVisited();
      var todo := resourceBindingInfos.Keys;
      forall k ensures k in before <==> Has(resourceBindingInfos, k) {
        NamesOf(before, k);
      }
      assert OutsideOf(before, todo) == {};
      while todo != {}
        invariant todo <= resourceBindingInfos.Keys
        invariant Visiting(before, OutsideOf(before, todo), copies, own) && fresh(own)
        decreases todo
      {
        var ns :| ns in todo;
        NextNamespace(before, todo, ns);
        copies, own := CopyNamespace(ns, copies, own, before, OutsideOf(before, todo));
        todo := todo - {ns};
      }
      assert OutsideOf(before, todo) == before.Keys;
    }

    /** The snapshot is a function of the cache, whatever order its maps are walked in; taking it
        writes the priorities into the cache, and the records handed out are copies. */
    method Snapshot() returns (snapshot: DispatcherCacheSnapshot, ghost own: set<Info>)
      requires Valid() && UniqueUids(infos) && ValidQueues(Contents())
      modifies `infos, records
      ensures Valid() && Contents() == WithPriorities(old(Contents()))
      ensures fresh(own) && snapshot.resourceBindingInfos.Values <= own
      ensures Copies(snapshot.resourceBindingInfos, own, TakeSnapshot(old(Contents())).infos)
      ensures snapshot.Value() == TakeSnapshot(old(Contents()))
    {
      AllTaken(Contents());
      var queueInfos := CloneQueues();
      var total := SumClusters();
      var copies;
      copies, own := CopyInfos();
      snapshot := DispatcherCacheSnapshot(defaultQueue, queueInfos, copies, total);
      ValueOfCopies(snapshot, own, TakeSnapshot(old(Contents())).infos);
    }

    method CloneQueues() returns (queueInfos: map<string, QueueInfo>)
      requires ValidQueues(Contents())
      ensures queueInfos == queues
    {
      queueInfos := map[];
      var todo := queues.Keys;
      while todo != {}
        invariant todo <= queues.Keys && queueInfos.Keys == queues.Keys - todo
        invariant forall n | n in queueInfos :: queueInfos[n] == queues[n]
        decreases todo
      {
        var n :| n in todo;
        queueInfos := queueInfos[queues[n].name := queues[n]];
        todo := todo - {n};
      }
    }
  }

  /** The keys of a namespace other than the given names; the keys of all other namespaces. */
  ghost function InNamespace(infos: map<Key, ResourceBindingInfo>, ns: string, names: set<string>): set<Key> {
    set k | k in infos && k.ns == ns && k.name !in names
  }

  ghost function OutsideOf(infos: map<Key, ResourceBindingInfo>, todo: set<string>): set<Key> {
    set k | k in infos && k.ns !in todo
  }

  lemma NextName(infos: map<Key, ResourceBindingInfo>, seen: set<Key>, ns: string, names: set<string>, name: string)
    requires name in names && Key(ns, name) in infos
    ensures seen + InNamespace(infos, ns, names - {name}) == seen + InNamespace(infos, ns, names) + {Key(ns, name)}
    ensures Key(ns, name) !in InNamespace(infos, ns, names)
  {
  }

  lemma NextNamespace(infos: map<Key, ResourceBindingInfo>, todo: set<string>, ns: string)
    requires ns in todo
    ensures OutsideOf(infos, todo - {ns}) == OutsideOf(infos, todo) + InNamespace(infos, ns, {})
    ensures forall k | k in OutsideOf(infos, todo) :: k.ns != ns
  {
  }
}
