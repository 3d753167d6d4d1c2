/** The records the dispatcher works on. */
module Api {
  import opened Resources

  datatype Option<+T> = None | Some(value: T)

  /** 1, 2 and 4 in the program; only compared for equality. */
  datatype DispatchStatus = Suspended | UnSuspending | UnSuspended

  type UID = string

  /** Namespace and name of a ResourceBinding. */
  datatype Key = Key(ns: string, name: string)

  datatype Suspension = Suspension(scheduling: Option<bool>, dispatching: Option<bool>)

  datatype ObjectReference = ObjectReference(apiVersion: string, kind: string, uid: UID)

  datatype ResourceBinding = ResourceBinding(
    key: Key,
    uid: UID,
    created: int,
    resource: ObjectReference,
    replicaRequest: Resource,
    replicas: nat,
    suspension: Option<Suspension>)

  predicate SchedulingSuspended(s: Option<Suspension>) {
    s.Some? && s.value.scheduling == Some(true)
  }

  datatype ResourceBindingInfo = ResourceBindingInfo(
    rb: ResourceBinding,
    resourceUID: UID,
    queue: string,
    priorityClassName: string,
    status: DispatchStatus,
    priority: int)

  /** The whole request of a binding: the request of one replica times the replicas. */
  function Request(b: ResourceBindingInfo): Resource {
    Multi(b.rb.replicaRequest, b.rb.replicas)
  }

  lemma RequestMeaning(b: ResourceBindingInfo, d: Dim)
    ensures Get(Request(b), d) == Get(b.rb.replicaRequest, d) * b.rb.replicas
  {
  }

  /** The queue a binding joins: its own, or the default one when it names none. */
  function QueueOr(defaultQueue: string, queue: string): string {
    if queue == "" then defaultQueue else queue
  }

  function QueueOf(defaultQueue: string, b: ResourceBindingInfo): string {
    QueueOr(defaultQueue, b.queue)
  }

  datatype QueueInfo = QueueInfo(
    name: string,
    uid: UID,
    priority: int,
    created: int,
    capability: Resource)

  /** What one session works on: queues by name, bindings by UID. */
  datatype Snapshot = Snapshot(
    defaultQueue: string,
    queues: map<string, QueueInfo>,
    infos: map<UID, ResourceBindingInfo>,
    total: Resource)

  ghost predicate KeyTells(infos: map<UID, ResourceBindingInfo>, u: UID, v: UID) {
    u in infos && v in infos && infos[u].rb.key == infos[v].rb.key ==> u == v
  }

  /** A queue's info carries its own name as name and UID (the library's NewQueueInfo), and
      names are not empty; UIDs and keys identify bindings. */
  ghost predicate ValidSnapshot(ss: Snapshot) {
    && (forall n | n in ss.queues :: n != "" && ss.queues[n].name == n && ss.queues[n].uid == n)
    && (forall u | u in ss.infos :: ss.infos[u].rb.uid == u)
    && (forall u, v :: KeyTells(ss.infos, u, v))
  }
}
