/** The mutable record behind a binding in the cache and in a session. */
module Records {
  import opened Resources
  import opened Api

  class Info {
    const rb: ResourceBinding
    const resourceUID: UID
    const queue: string
    const priorityClassName: string
    var status: DispatchStatus
    var priority: int

    constructor (v: ResourceBindingInfo)
      ensures Value() == v
    {
      rb, resourceUID, queue, priorityClassName := v.rb, v.resourceUID, v.queue, v.priorityClassName;
      status, priority := v.status, v.priority;
    }

    function Value(): ResourceBindingInfo
      reads this
    {
      ResourceBindingInfo(rb, resourceUID, queue, priorityClassName, status, priority)
    }

    /** A session works on copies: what it does to them does not show in the cache. */
    method DeepCopy() returns (copy: Info)
      ensures fresh(copy) && copy.Value() == Value()
    {
      copy := new Info(Value());
    }
  }

  /** One entry of a map of copies: a record of the given set that shows the given value. */
  ghost predicate Copy(copies: map<UID, Info>, own: set<Info>, values: map<UID, ResourceBindingInfo>, u: UID)
    reads own
  {
    && (u in copies <==> u in values)
    && (u in copies ==> copies[u] in own && copies[u].Value() == values[u])
  }

  ghost predicate Copies(copies: map<UID, Info>, own: set<Info>, values: map<UID, ResourceBindingInfo>)
    reads own
  {
    forall u :: Copy(copies, own, values, u)
  }

  /** What the cache hands to a session: the records in it belong to the session. */
  datatype DispatcherCacheSnapshot = DispatcherCacheSnapshot(
    defaultQueue: string,
    queueInfos: map<string, QueueInfo>,
    resourceBindingInfos: map<UID, Info>,
    totalResource: Resource)
  {
    function Value(): Snapshot
      reads resourceBindingInfos.Values
    {
      Snapshot(defaultQueue, queueInfos, map u | u in resourceBindingInfos :: resourceBindingInfos[u].Value(),
               totalResource)
    }
  }

  lemma ValueOfCopies(s: DispatcherCacheSnapshot, own: set<Info>, values: map<UID, ResourceBindingInfo>)
    requires Copies(s.resourceBindingInfos, own, values)
    ensures s.resourceBindingInfos.Values <= own && s.Value().infos == values
  {
    var copies, shown := s.resourceBindingInfos, s.Value().infos;
    forall u ensures (u in copies <==> u in values) && (u in copies ==> copies[u] in own && shown[u] == values[u]) {
      assert Copy(copies, own, values, u);
    }
  }
}
