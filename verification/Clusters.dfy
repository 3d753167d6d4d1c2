/** The whole system: the API server's bindings, the informer that delivers their versions in
    order, the cache and its protocol, and the dispatcher thread carrying out sessions. */
module Clusters {
  import opened Resources
  import opened Api
  import opened Sessions
  import opened Outcomes
  import opened CacheModel
  import opened PriorityClasses
  import opened Admission
  import P = Protocol

  /** What an informer delivers of a binding beside its key and its suspension, and the queue and
      the class its workload names. */
  datatype Profile = Profile(
    uid: UID, created: int, resource: ObjectReference,
    replicaRequest: Resource, replicas: nat,
    queue: string, priorityClassName: string)

  /** The configured default queue, the registered workloads, and for every key the binding that
      may be created under it: names are not reused. */
  datatype World = World(defaultQueue: string, registry: Registry, profiles: map<Key, Profile>)

  ghost predicate ValidWorld(w: World) {
    forall j, k | j in w.profiles && k in w.profiles && w.profiles[j].uid == w.profiles[k].uid :: j == k
  }

  datatype OpenSession = OpenSession(ss: Snapshot, done: nat)

  /** versions: every suspension a binding had in the API, oldest first; seen: how many of them
      the informer is past; deleted: gone from the API; closed: their delete event was handled;
      session: the snapshot the dispatcher works on and how many of its requests it has made. */
  datatype Cluster = Cluster(
    p: P.State,
    versions: map<Key, seq<Option<Suspension>>>,
    seen: map<Key, nat>,
    deleted: set<Key>,
    closed: set<Key>,
    session: Option<OpenSession>)

  /** Return: the patch of a worker is answered; ok is what the worker is told, applied whether
      the API server carried it out. */
  datatype Step =
    | Create(key: Key, request: Admission.Request)
    | Edit(key: Key, suspension: Option<Suspension>)
    | Remove(key: Key)
    | Deliver(key: Key, version: nat, profile: Profile, lookup: WorkloadLookup)
    | DeliverDelete(key: Key)
    | BeginSession
    | NextRequest
    | EndSession
    | TakeWork
    | LookUp(key: Key)
    | Return(key: Key, ok: bool, applied: bool)
    | PutBack(key: Key)
    | Finish(key: Key)
    | Reconfigure(queues: map<string, QueueInfo>, clusters: map<string, Resource>)
    | ChangeClass(event: ClassEvent)

  function BindingOf(k: Key, f: Profile, s: Option<Suspension>): ResourceBinding {
    ResourceBinding(k, f.uid, f.created, f.resource, f.replicaRequest, f.replicas, s)
  }

  function Last<T>(xs: seq<T>): T
    requires xs != []
  {
    xs[|xs| - 1]
  }

  /** The API server knows the binding and has not removed it. */
  predicate Live(c: Cluster, k: Key) {
    k in c.versions && c.versions[k] != [] && k !in c.deleted
  }

  /** What the API server stores for a create request, after the webhook; None if it refuses. */
  function Stored(w: World, request: Admission.Request): Option<Json> {
    var response := ResourceBindings(w.registry, Some(request));
    if response.Allowed? then Admit(request.doc.value, response) else None
  }

  function StoredSuspension(w: World, request: Admission.Request): Option<Suspension> {
    var stored := Stored(w, request);
    if stored.Some? then ReadSuspension(stored.value) else None
  }

  /** The look-up asks first whether the resource is of a registered workload; only for those is the
      resource fetched and converted. */
  predicate LooksUp(registry: Registry, ref: ObjectReference, lookup: WorkloadLookup) {
    match TryGetNewWorkloadFunc(registry, ref)
    case Unparsable => lookup.ParseError?
    case NotRegistered => lookup.NotWorkload?
    case Registered => lookup.FetchError? || lookup.ConvertError? || lookup.Workload?
  }

  /** The key's binding is of a registered workload. */
  predicate IsWorkload(w: World, k: Key) {
    k in w.profiles && TryGetNewWorkloadFunc(w.registry, w.profiles[k].resource) == Registered
  }

  /** Names are not reused, a patch reported as successful was applied, and none is applied to a
      removed binding. Anybody may edit a suspension in any way. */
  ghost predicate Enabled(w: World, c: Cluster, a: Step) {
    match a
    case Create(k, request) =>
      k in w.profiles && k !in c.versions && request.ref == w.profiles[k].resource && Stored(w, request).Some?
    case Edit(k, _) => Live(c, k)
    case Remove(k) => Live(c, k)
    case Deliver(k, i, f, lookup) =>
      && k in w.profiles && k in c.versions && k in c.seen && k !in c.closed
      && c.seen[k] <= i < |c.versions[k]| && f.uid == w.profiles[k].uid && LooksUp(w.registry, f.resource, lookup)
    case DeliverDelete(k) => k in c.deleted && k !in c.closed
    case BeginSession => c.session.None? && UniqueUids(c.p.cache.infos)
    case NextRequest =>
      && c.session.Some? && ValidSnapshot(c.session.value.ss)
      && c.session.value.done < |Decisions(c.session.value.ss)|
    case EndSession =>
      && c.session.Some? && ValidSnapshot(c.session.value.ss)
      && c.session.value.done == |Decisions(c.session.value.ss)|
    case TakeWork => P.Enabled(c.p, P.WorkerGet)
    case LookUp(k) => P.Enabled(c.p, P.WorkerLookup(k))
    case Return(k, ok, applied) =>
      P.Enabled(c.p, P.PatchReturns(k, ok)) && (ok ==> applied) && (applied ==> Live(c, k))
    case PutBack(k) => P.Enabled(c.p, P.RecoverStatus(k))
    case Finish(k) => P.Enabled(c.p, P.MarkDone(k))
    case Reconfigure(queues, _) => ProperQueues(queues)
    case ChangeClass(_) => true
  }

  predicate SuspendedAt(vs: seq<Option<Suspension>>, i: nat)
    requires i < |vs|
  {
    SchedulingSuspended(vs[i])
  }

  /** Suspended now, and in every version from n on. */
  predicate StaysSuspended(vs: seq<Option<Suspension>>, n: nat) {
    vs != [] && SchedulingSuspended(Last(vs)) && forall i | n <= i < |vs| :: SuspendedAt(vs, i)
  }

  /** Requests for the key that are not answered and put away yet. */
  function Asked(v: P.KeyView): int {
    P.One(v.dirty) + v.holding + v.patching + v.recovering
  }

  /** An update that says suspended is delivered to a binding marked unsuspending only when no request
      for it is outstanding and no later version lifts the suspension. */
  predicate Calm(c: Cluster, a: Step) {
    a.Deliver? && a.lookup.Workload? && a.key in c.versions && a.version < |c.versions[a.key]|
    && SuspendedAt(c.versions[a.key], a.version) && P.IsUnSuspending(c.p, a.key)
    ==> Settled(P.ViewOf(c.p, a.key), c.versions[a.key], a.version)
  }

  predicate Settled(v: P.KeyView, vs: seq<Option<Suspension>>, i: nat) {
    Asked(v) == 0 && StaysSuspended(vs, i + 1)
  }

  /** No cached binding that is not suspended names a class the cache does not have. */
  predicate ActiveKnown(c: CacheState) {
    forall k | k in c.infos && c.infos[k].status != Suspended :: !Skipped(c.pcs, c.infos[k])
  }

  /** The delivered binding is the key's, with the request, the queue and the class it was created with. */
  predicate SameProfile(w: World, a: Step) {
    a.Deliver? && a.lookup.Workload? ==>
      && a.key in w.profiles && a.profile == w.profiles[a.key]
      && a.lookup == Workload(a.profile.queue, a.profile.priorityClassName)
  }

  /** No edit lifts the suspension of a registered workload's binding, a patch reported as failed was
      not applied, requests and queues of bindings do not change, and sessions open on all active
      bindings. */
  predicate Steady(w: World, c: Cluster, a: Step) {
    match a
    case Edit(k, s) => IsWorkload(w, k) ==> !Lifts(c, k, s)
    case Deliver(_, _, _, _) => SameProfile(w, a)
    case Return(_, ok, applied) => applied ==> ok
    case BeginSession => ActiveKnown(c.p.cache)
    case _ => true
  }

  /** An edit takes the suspension away. */
  predicate Lifts(c: Cluster, k: Key, s: Option<Suspension>) {
    Live(c, k) && SchedulingSuspended(Last(c.versions[k])) && !SchedulingSuspended(s)
  }

  /** What the protocol sees of a step. */
  ghost function Action(w: World, c: Cluster, a: Step): Option<P.Action>
    requires Enabled(w, c, a)
  {
    match a
    case Deliver(k, i, f, lookup) => Some(P.SetBinding(BindingOf(k, f, c.versions[k][i]), lookup))
    case DeliverDelete(k) => Some(P.DeleteBinding(k))
    case BeginSession => Some(P.TakeSnapshot)
    case NextRequest => Some(P.CallUnSuspend(Decisions(c.session.value.ss)[c.session.value.done]))
    case TakeWork => Some(P.WorkerGet)
    case LookUp(k) => Some(P.WorkerLookup(k))
    case Return(k, ok, _) => Some(P.PatchReturns(k, ok))
    case PutBack(k) => Some(P.RecoverStatus(k))
    case Finish(k) => Some(P.MarkDone(k))
    case Reconfigure(queues, clusters) => Some(P.ConfigChange(queues, clusters))
    case ChangeClass(event) => Some(P.ClassChange(event))
    case _ => None
  }

  ghost function NextP(w: World, c: Cluster, a: Step): P.State
    requires Enabled(w, c, a)
  {
    match Action(w, c, a)
    case Some(x) => P.Next(c.p, x)
    case None => c.p
  }

  function NextVersions(w: World, c: Cluster, a: Step): map<Key, seq<Option<Suspension>>> {
    match a
    case Create(k, request) => c.versions[k := [StoredSuspension(w, request)]]
    case Edit(k, s) => if k in c.versions then c.versions[k := c.versions[k] + [s]] else c.versions
    case Return(k, _, applied) =>
      if applied && k in c.versions then c.versions[k := c.versions[k] + [Patched(false)]] else c.versions
    case _ => c.versions
  }

  function NextSeen(c: Cluster, a: Step): map<Key, nat> {
    match a
    case Create(k, _) => c.seen[k := 0]
    case Deliver(k, i, _, _) => c.seen[k := i + 1]
    case _ => c.seen
  }

  ghost function NextSession(w: World, c: Cluster, a: Step): Option<OpenSession>
    requires Enabled(w, c, a)
  {
    match a
    case BeginSession => Some(OpenSession(CacheModel.TakeSnapshot(c.p.cache), 0))
    case NextRequest => Some(OpenSession(c.session.value.ss, c.session.value.done + 1))
    case EndSession => None
    case _ => c.session
  }

  ghost function Next(w: World, c: Cluster, a: Step): Cluster
    requires Enabled(w, c, a)
  {
    Cluster(
      NextP(w, c, a),
      NextVersions(w, c, a),
      NextSeen(c, a),
      if a.Remove? then c.deleted + {a.key} else c.deleted,
      if a.DeliverDelete? then c.closed + {a.key} else c.closed,
      NextSession(w, c, a))
  }

  ghost predicate Legal(w: World, c: Cluster, steps: seq<Step>)
    decreases |steps|
  {
    steps != [] ==> Enabled(w, c, steps[0]) && Legal(w, Next(w, c, steps[0]), steps[1..])
  }

  ghost predicate CalmRun(w: World, c: Cluster, steps: seq<Step>)
    requires Legal(w, c, steps)
    decreases |steps|
  {
    steps != [] ==> Calm(c, steps[0]) && CalmRun(w, Next(w, c, steps[0]), steps[1..])
  }

  ghost predicate SteadyRun(w: World, c: Cluster, steps: seq<Step>)
    requires Legal(w, c, steps)
    decreases |steps|
  {
    steps != [] ==> Steady(w, c, steps[0]) && SteadyRun(w, Next(w, c, steps[0]), steps[1..])
  }

  ghost function Exec(w: World, c: Cluster, steps: seq<Step>): Cluster
    requires Legal(w, c, steps)
    decreases |steps|
  {
    if steps == [] then c else Exec(w, Next(w, c, steps[0]), steps[1..])
  }

  // ----- how a key's versions can look -----

  /** From n on, once suspended always suspended. */
  predicate NeverLifted(vs: seq<Option<Suspension>>, n: nat) {
    forall i, j | n <= i < j < |vs| && SuspendedAt(vs, i) :: SuspendedAt(vs, j)
  }

  /** From n on, at most one lift: after a version that is not suspended, NeverLifted. */
  predicate LiftedOnce(vs: seq<Option<Suspension>>, n: nat) {
    forall m | n <= m < |vs| && !SuspendedAt(vs, m) :: NeverLifted(vs, m + 1)
  }

  lemma Appended(vs: seq<Option<Suspension>>, n: nat, s: Option<Suspension>)
    requires vs != [] && n <= |vs|
    ensures StaysSuspended(vs, n) && SchedulingSuspended(s) ==> StaysSuspended(vs + [s], n)
    ensures StaysSuspended(vs, n) ==> LiftedOnce(vs + [s], n)
    ensures NeverLifted(vs, n) && (SchedulingSuspended(Last(vs)) ==> SchedulingSuspended(s)) ==>
              NeverLifted(vs + [s], n)
  {
    var r := vs + [s];
    assert forall i | 0 <= i < |vs| :: r[i] == vs[i] && SuspendedAt(r, i) == SuspendedAt(vs, i);
    if NeverLifted(vs, n) && (SchedulingSuspended(Last(vs)) ==> SchedulingSuspended(s)) {
      forall i, j | n <= i < j < |r| && SuspendedAt(r, i) ensures SuspendedAt(r, j) {
        assert i < |vs| - 1 && SuspendedAt(vs, i) ==> SuspendedAt(vs, |vs| - 1);
      }
    }
  }

  lemma AppendedLiftedOnce(vs: seq<Option<Suspension>>, n: nat, s: Option<Suspension>)
    requires vs != [] && n <= |vs| && LiftedOnce(vs, n)
    requires SchedulingSuspended(Last(vs)) ==> SchedulingSuspended(s)
    ensures LiftedOnce(vs + [s], n)
  {
    var r := vs + [s];
    assert forall i | 0 <= i < |vs| :: r[i] == vs[i] && SuspendedAt(r, i) == SuspendedAt(vs, i);
    forall m | n <= m < |r| && !SuspendedAt(r, m) ensures NeverLifted(r, m + 1) {
      if m < |vs| {
        assert SuspendedAt(vs, m) == SuspendedAt(r, m);
        Appended(vs, m + 1, s);
      }
    }
  }

  // ----- one key's invariant -----

  /** How the cached status, the outstanding request and the versions the informer has not
      delivered yet go together. */
  predicate StatusOk(v: P.KeyView, vs: seq<Option<Suspension>>, n: nat) {
    && n <= |vs|
    && if v.cached && v.unsuspending then
         (Asked(v) == 1 && StaysSuspended(vs, n)) || (Asked(v) == 0 && LiftedOnce(vs, n))
       else if v.cached && !v.suspended then Asked(v) == 0 && NeverLifted(vs, n)
       else Asked(v) == 0 && StaysSuspended(vs, n)
  }

  /** Steps that deliver nothing and change no version. */
  lemma StatusKept(v: P.KeyView, e: P.KeyEvent, vs: seq<Option<Suspension>>, n: nat)
    requires P.KeyInv(v) && P.KeyEnabled(v, e) && StatusOk(v, vs, n)
    requires !e.Stored? && !e.Removed? && e != P.Returned(true)
    requires e.Called? && v.cached ==> v.suspended
    ensures StatusOk(P.KeyNext(v, e), vs, n)
  {
  }

  /** A delivery keeps them together exactly when it is calm. */
  lemma StatusDelivered(v: P.KeyView, vs: seq<Option<Suspension>>, n: nat, i: nat)
    requires P.KeyInv(v) && StatusOk(v, vs, n) && n <= i < |vs|
    ensures StatusOk(P.KeyNext(v, P.Stored(SuspendedAt(vs, i))), vs, i + 1)
       <==> (SuspendedAt(vs, i) && v.unsuspending ==> Settled(v, vs, i))
  {
    if SuspendedAt(vs, i) && v.cached && !v.suspended && !v.unsuspending {
      assert forall j | i < j < |vs| :: SuspendedAt(vs, j);
      assert SuspendedAt(vs, |vs| - 1);
    }
  }

  lemma StatusMissed(v: P.KeyView, vs: seq<Option<Suspension>>, n: nat, m: nat)
    requires StatusOk(v, vs, n) && n <= m <= |vs|
    ensures StatusOk(v, vs, m)
  {
  }

  lemma StatusLifted(v: P.KeyView, vs: seq<Option<Suspension>>, n: nat)
    requires P.KeyInv(v) && v.patching > 0 && StatusOk(v, vs, n)
    ensures StatusOk(P.KeyNext(v, P.Returned(true)), vs + [Patched(false)], n)
  {
    Appended(vs, n, Patched(false));
  }

  lemma StatusEdited(v: P.KeyView, vs: seq<Option<Suspension>>, n: nat, s: Option<Suspension>)
    requires StatusOk(v, vs, n) && vs != []
    requires SchedulingSuspended(Last(vs)) ==> SchedulingSuspended(s)
    ensures StatusOk(v, vs + [s], n)
  {
    Appended(vs, n, s);
    if LiftedOnce(vs, n) {
      AppendedLiftedOnce(vs, n, s);
    }
  }

  // ----- the invariant of a key over the steps of the system -----

  ghost predicate KeyOk(w: World, c: Cluster, k: Key) {
    KeyParts(w, k, P.ViewOf(c.p, k), c.versions, c.seen, c.deleted, c.closed)
  }

  ghost predicate KeyParts(w: World, k: Key, v: P.KeyView, versions: map<Key, seq<Option<Suspension>>>,
                           seen: map<Key, nat>, deleted: set<Key>, closed: set<Key>)
  {
    && (k in closed ==> !v.cached && k in deleted)
    && (k in deleted ==> k in versions)
    && (k !in versions ==> !v.cached && Asked(v) == 0)
    && (k in versions ==> k in w.profiles && versions[k] != [] && k in seen)
    && (k in versions && k !in closed && IsWorkload(w, k) ==> StatusOk(v, versions[k], seen[k]))
    && (!IsWorkload(w, k) ==> !v.cached && Asked(v) == 0)
  }

  ghost function Event(w: World, c: Cluster, a: Step, k: Key): P.KeyEvent
    requires Enabled(w, c, a)
  {
    match Action(w, c, a)
    case Some(x) => P.EventFor(c.p, x, k)
    case None => P.Nothing
  }

  lemma EventStep(w: World, c: Cluster, a: Step, k: Key)
    requires Enabled(w, c, a) && P.Inv(c.p)
    ensures P.KeyInv(P.ViewOf(c.p, k)) && P.KeyEnabled(P.ViewOf(c.p, k), Event(w, c, a, k))
    ensures P.ViewOf(NextP(w, c, a), k) == P.KeyNext(P.ViewOf(c.p, k), Event(w, c, a, k))
    ensures P.Inv(NextP(w, c, a))
  {
    match Action(w, c, a) {
      case Some(x) =>
        P.ViewStep(c.p, x, k);
        P.InvStep(c.p, x);
      case None =>
    }
    assert P.KeyInv(P.ViewOf(c.p, k));
  }

  /** The key a step is about; a session step is about the requested one. */
  ghost predicate About(w: World, c: Cluster, a: Step, k: Key)
    requires Enabled(w, c, a)
  {
    match a
    case BeginSession => false
    case NextRequest => Decisions(c.session.value.ss)[c.session.value.done] == k
    case EndSession => false
    case TakeWork => c.p.cache.tasks.queue[0] == k
    case Reconfigure(_, _) => false
    case ChangeClass(_) => false
    case _ => a.key == k
  }

  lemma NotAbout(w: World, c: Cluster, a: Step, k: Key)
    requires Enabled(w, c, a) && !About(w, c, a, k)
    ensures Event(w, c, a, k) == P.Nothing
    ensures k in NextVersions(w, c, a) <==> k in c.versions
    ensures k in c.versions ==> NextVersions(w, c, a)[k] == c.versions[k]
    ensures (k in NextSeen(c, a) <==> k in c.seen) && (k in c.seen ==> NextSeen(c, a)[k] == c.seen[k])
  {
  }

  lemma CalledByRequest(w: World, c: Cluster, a: Step, k: Key)
    requires Enabled(w, c, a) && Event(w, c, a, k).Called?
    ensures a.NextRequest? && About(w, c, a, k)
  {
    P.EventKinds(c.p, Action(w, c, a).value, k);
  }

  /** The dispatcher asks only for bindings that, if cached, are suspended. */
  ghost predicate AsksSuspended(w: World, c: Cluster, a: Step)
    requires Enabled(w, c, a)
  {
    a.NextRequest? ==>
      var k := Decisions(c.session.value.ss)[c.session.value.done];
      k in c.p.cache.infos ==> HasStatus(c.p.cache, k, Suspended)
  }

  /** The webhook makes the binding of a registered workload start suspended. */
  lemma StoredIsSuspended(w: World, request: Admission.Request)
    requires Stored(w, request).Some? && TryGetNewWorkloadFunc(w.registry, request.ref) == Registered
    ensures SchedulingSuspended(StoredSuspension(w, request))
  {
    AdmittedIsSuspendedExactly(w.registry, request);
  }

  lemma KeyOkCreated(w: World, c: Cluster, a: Step, k: Key)
    requires P.Inv(c.p) && KeyOk(w, c, k) && Enabled(w, c, a) && a.Create? && a.key == k
    ensures KeyOk(w, Next(w, c, a), k)
  {
    EventStep(w, c, a, k);
    if IsWorkload(w, k) {
      StoredIsSuspended(w, a.request);
    }
  }

  lemma KeyOkEdited(w: World, c: Cluster, a: Step, k: Key)
    requires P.Inv(c.p) && KeyOk(w, c, k) && Enabled(w, c, a) && Steady(w, c, a) && a.Edit? && a.key == k
    ensures KeyOk(w, Next(w, c, a), k)
  {
    EventStep(w, c, a, k);
    if IsWorkload(w, k) && k !in c.closed {
      StatusEdited(P.ViewOf(c.p, k), c.versions[k], c.seen[k], a.suspension);
    }
  }

  lemma KeyOkRemoved(w: World, c: Cluster, a: Step, k: Key)
    requires P.Inv(c.p) && KeyOk(w, c, k) && Enabled(w, c, a) && a.Remove? && a.key == k
    ensures KeyOk(w, Next(w, c, a), k)
  {
    EventStep(w, c, a, k);
  }

  lemma KeyPartsDelivered(w: World, k: Key, v: P.KeyView, versions: map<Key, seq<Option<Suspension>>>,
                          seen: map<Key, nat>, deleted: set<Key>, closed: set<Key>, i: nat)
    requires KeyParts(w, k, v, versions, seen, deleted, closed) && P.KeyInv(v)
    requires IsWorkload(w, k) && k in versions && k !in closed && k in seen && seen[k] <= i < |versions[k]|
    ensures var next := P.KeyNext(v, P.Stored(SuspendedAt(versions[k], i)));
            KeyParts(w, k, next, versions, seen[k := i + 1], deleted, closed)
            <==> (SuspendedAt(versions[k], i) && v.unsuspending ==> Settled(v, versions[k], i))
  {
    StatusDelivered(v, versions[k], seen[k], i);
  }

  lemma SteadyDelivery(w: World, c: Cluster, a: Step)
    requires Enabled(w, c, a) && Steady(w, c, a) && a.Deliver? && a.lookup.Workload?
    ensures IsWorkload(w, a.key)
  {
  }

  lemma DeliveredView(w: World, c: Cluster, a: Step, k: Key)
    requires P.Inv(c.p) && Enabled(w, c, a) && a.Deliver? && a.key == k && a.lookup.Workload?
    ensures P.KeyInv(P.ViewOf(c.p, k))
    ensures P.ViewOf(NextP(w, c, a), k)
         == P.KeyNext(P.ViewOf(c.p, k), P.Stored(SuspendedAt(c.versions[k], a.version)))
  {
    EventStep(w, c, a, k);
    assert Event(w, c, a, k) == P.Stored(SuspendedAt(c.versions[k], a.version));
  }

  lemma DeliveredParts(w: World, c: Cluster, a: Step, k: Key)
    requires P.Inv(c.p) && Enabled(w, c, a) && a.Deliver? && a.key == k && a.lookup.Workload?
    ensures P.KeyInv(P.ViewOf(c.p, k))
    ensures var next := P.KeyNext(P.ViewOf(c.p, k), P.Stored(SuspendedAt(c.versions[k], a.version)));
            KeyOk(w, Next(w, c, a), k)
            <==> KeyParts(w, k, next, c.versions, c.seen[k := a.version + 1], c.deleted, c.closed)
  {
    DeliveredView(w, c, a, k);
  }

  lemma CalmMeans(c: Cluster, a: Step, k: Key)
    requires a.Deliver? && a.key == k && a.lookup.Workload? && k in c.versions && a.version < |c.versions[k]|
    ensures Calm(c, a)
       <==> (SuspendedAt(c.versions[k], a.version) && P.ViewOf(c.p, k).unsuspending ==>
               Settled(P.ViewOf(c.p, k), c.versions[k], a.version))
  {
  }

  lemma KeyOkDelivered(w: World, c: Cluster, a: Step, k: Key)
    requires P.Inv(c.p) && KeyOk(w, c, k) && Enabled(w, c, a) && Steady(w, c, a)
    requires a.Deliver? && a.key == k && a.lookup.Workload?
    ensures KeyOk(w, Next(w, c, a), k) <==> Calm(c, a)
  {
    var v, vs, i := P.ViewOf(c.p, k), c.versions[k], a.version;
    var parts := KeyParts(w, k, P.KeyNext(v, P.Stored(SuspendedAt(vs, i))), c.versions, c.seen[k := i + 1],
                          c.deleted, c.closed);
    var settled := SuspendedAt(vs, i) && v.unsuspending ==> Settled(v, vs, i);
    assert KeyOk(w, Next(w, c, a), k) <==> parts by { DeliveredParts(w, c, a, k); }
    assert Calm(c, a) <==> settled by { CalmMeans(c, a, k); }
    assert parts <==> settled by {
      SteadyDelivery(w, c, a);
      EventStep(w, c, a, k);
      KeyPartsDelivered(w, k, v, c.versions, c.seen, c.deleted, c.closed, i);
    }
  }

  lemma MissedView(w: World, c: Cluster, a: Step, k: Key)
    requires P.Inv(c.p) && Enabled(w, c, a) && a.Deliver? && a.key == k && !a.lookup.Workload?
    ensures P.ViewOf(NextP(w, c, a), k) == P.ViewOf(c.p, k)
  {
    EventStep(w, c, a, k);
    assert Event(w, c, a, k) == P.Nothing;
  }

  lemma KeyOkMissed(w: World, c: Cluster, a: Step, k: Key)
    requires P.Inv(c.p) && KeyOk(w, c, k) && Enabled(w, c, a)
    requires a.Deliver? && a.key == k && !a.lookup.Workload?
    ensures KeyOk(w, Next(w, c, a), k)
  {
    MissedView(w, c, a, k);
    KeyPartsMissed(w, k, P.ViewOf(c.p, k), c.versions, c.seen, c.deleted, c.closed, a.version + 1);
  }

  lemma KeyPartsMissed(w: World, k: Key, v: P.KeyView, versions: map<Key, seq<Option<Suspension>>>, seen: map<Key, nat>,
                       deleted: set<Key>, closed: set<Key>, m: nat)
    requires KeyParts(w, k, v, versions, seen, deleted, closed)
    requires k in versions && k !in closed && k in seen && seen[k] <= m <= |versions[k]|
    ensures KeyParts(w, k, v, versions, seen[k := m], deleted, closed)
  {
    if IsWorkload(w, k) {
      StatusMissed(v, versions[k], seen[k], m);
    }
  }

  lemma KeyOkClosed(w: World, c: Cluster, a: Step, k: Key)
    requires P.Inv(c.p) && KeyOk(w, c, k) && Enabled(w, c, a)
    requires a.DeliverDelete? && a.key == k
    ensures KeyOk(w, Next(w, c, a), k)
  {
    EventStep(w, c, a, k);
    assert Event(w, c, a, k) == P.Removed;
  }

  lemma KeyOkReturn(w: World, c: Cluster, a: Step, k: Key)
    requires P.Inv(c.p) && KeyOk(w, c, k) && Enabled(w, c, a) && a == Return(k, true, true)
    ensures KeyOk(w, Next(w, c, a), k)
  {
    EventStep(w, c, a, k);
    StatusLifted(P.ViewOf(c.p, k), c.versions[k], c.seen[k]);
  }

  /** The steps that change neither versions nor what was delivered. */
  predicate Internal(a: Step) {
    match a
    case BeginSession => true
    case NextRequest => true
    case EndSession => true
    case TakeWork => true
    case LookUp(_) => true
    case Return(_, ok, applied) => !ok && !applied
    case PutBack(_) => true
    case Finish(_) => true
    case Reconfigure(_, _) => true
    case ChangeClass(_) => true
    case _ => false
  }

  lemma InternalAction(w: World, c: Cluster, a: Step)
    requires Enabled(w, c, a) && Internal(a) && Action(w, c, a).Some?
    ensures var x := Action(w, c, a).value;
            !x.SetBinding? && !x.DeleteBinding? && !(x.PatchReturns? && x.ok) && (x.CallUnSuspend? ==> a.NextRequest?)
  {
  }

  lemma InternalEvent(w: World, c: Cluster, a: Step, k: Key)
    requires Enabled(w, c, a) && Internal(a)
    ensures var e := Event(w, c, a, k);
            !e.Stored? && !e.Removed? && e != P.Returned(true) && (e.Called? ==> a.NextRequest? && About(w, c, a, k))
  {
    match Action(w, c, a) {
      case Some(x) =>
        InternalAction(w, c, a);
        P.EventKinds(c.p, x, k);
      case None =>
    }
  }

  lemma InternalVersions(w: World, c: Cluster, a: Step)
    requires Internal(a)
    ensures NextVersions(w, c, a) == c.versions && NextSeen(c, a) == c.seen
  {
  }

  lemma AskedKept(v: P.KeyView, e: P.KeyEvent)
    requires P.KeyInv(v) && P.KeyEnabled(v, e) && !e.Stored? && !e.Removed?
    ensures P.KeyNext(v, e).cached == v.cached
    ensures !v.cached && Asked(v) == 0 ==> Asked(P.KeyNext(v, e)) == 0
  {
  }

  lemma KeyPartsKept(w: World, k: Key, v: P.KeyView, e: P.KeyEvent, versions: map<Key, seq<Option<Suspension>>>,
                     seen: map<Key, nat>, deleted: set<Key>, closed: set<Key>)
    requires KeyParts(w, k, v, versions, seen, deleted, closed)
    requires P.KeyInv(v) && P.KeyEnabled(v, e)
    requires !e.Stored? && !e.Removed? && e != P.Returned(true)
    requires e.Called? && v.cached ==> v.suspended
    ensures KeyParts(w, k, P.KeyNext(v, e), versions, seen, deleted, closed)
  {
    AskedKept(v, e);
    if k in versions && k !in closed && IsWorkload(w, k) {
      StatusKept(v, e, versions[k], seen[k]);
    }
  }

  lemma KeyOkInternal(w: World, c: Cluster, a: Step, k: Key)
    requires P.Inv(c.p) && KeyOk(w, c, k) && Enabled(w, c, a) && AsksSuspended(w, c, a) && Internal(a)
    ensures KeyOk(w, Next(w, c, a), k)
  {
    EventStep(w, c, a, k);
    InternalEvent(w, c, a, k);
    InternalVersions(w, c, a);
    KeyPartsKept(w, k, P.ViewOf(c.p, k), Event(w, c, a, k), c.versions, c.seen, c.deleted, c.closed);
  }

  lemma KeyOkOther(w: World, c: Cluster, a: Step, k: Key)
    requires P.Inv(c.p) && KeyOk(w, c, k) && Enabled(w, c, a) && !About(w, c, a, k)
    ensures KeyOk(w, Next(w, c, a), k)
  {
    EventStep(w, c, a, k);
    NotAbout(w, c, a, k);
  }

  lemma KeyOkAbout(w: World, c: Cluster, a: Step, k: Key)
    requires P.Inv(c.p) && KeyOk(w, c, k) && Enabled(w, c, a) && Steady(w, c, a) && About(w, c, a, k) && !Internal(a)
    ensures KeyOk(w, Next(w, c, a), k) <==> (a.Deliver? ==> Calm(c, a))
  {
    match a {
      case Create(_, _) => KeyOkCreated(w, c, a, k);
      case Edit(_, _) => KeyOkEdited(w, c, a, k);
      case Remove(_) => KeyOkRemoved(w, c, a, k);
      case Deliver(_, _, _, lookup) =>
        if lookup.Workload? {
          KeyOkDelivered(w, c, a, k);
        } else {
          KeyOkMissed(w, c, a, k);
        }
      case DeliverDelete(_) => KeyOkClosed(w, c, a, k);
      case Return(_, _, _) => KeyOkReturn(w, c, a, k);
    }
  }

  /** A steady step keeps a key's cached status, its outstanding request and the versions not
      delivered yet in agreement if and only if it is not a delivery of that key that is not calm. */
  lemma KeyOkStep(w: World, c: Cluster, a: Step, k: Key)
    requires P.Inv(c.p) && KeyOk(w, c, k) && Enabled(w, c, a) && Steady(w, c, a) && AsksSuspended(w, c, a)
    ensures KeyOk(w, Next(w, c, a), k) <==> (a.Deliver? && a.key == k ==> Calm(c, a))
  {
    if Internal(a) {
      KeyOkInternal(w, c, a, k);
    } else if About(w, c, a, k) {
      KeyOkAbout(w, c, a, k);
    } else {
      KeyOkOther(w, c, a, k);
    }
  }
}
