/** The admission gate over whole runs: no key is patched that no session of the run asked for, and
    a binding whose workload is registered stays suspended in the API until a patch or an edit
    lifts it. */
module AdmissionGate {
  import opened Api
  import opened Admission
  import opened Sessions
  import opened Outcomes
  import opened CacheModel
  import opened Clusters
  import P = Protocol
  import WQ = WorkQueues

  /** Nobody is at work, and no session is open. */
  ghost predicate Resting(c: Cluster) {
    P.Inv(c.p) && c.session == None && c.p.cache.tasks == WQ.NO_WORK && c.p.procs == multiset{}
  }

  // ----- what was asked for in a run -----

  ghost predicate AsksFor(w: World, c: Cluster, a: Step, k: Key)
    requires Clusters.Enabled(w, c, a)
  {
    a.NextRequest? && About(w, c, a, k)
  }

  /** Before the session open at the start of the run is ended, it asks for the key. */
  ghost predicate SessionAsks(w: World, c: Cluster, steps: seq<Step>, k: Key)
    requires Clusters.Legal(w, c, steps)
    decreases |steps|
  {
    && steps != [] && !steps[0].EndSession?
    && (AsksFor(w, c, steps[0], k) || SessionAsks(w, Clusters.Next(w, c, steps[0]), steps[1..], k))
  }

  /** A session is opened in the run on this snapshot of the cache as it was then, and asks for the
      key. */
  ghost predicate OpenedAndAsked(w: World, c: Cluster, steps: seq<Step>, ss: Snapshot, k: Key)
    requires Clusters.Legal(w, c, steps)
    decreases |steps|
  {
    steps != [] &&
      var t := Clusters.Next(w, c, steps[0]);
      || (steps[0].BeginSession? && ss == TakeSnapshot(c.p.cache) && SessionAsks(w, t, steps[1..], k))
      || OpenedAndAsked(w, t, steps[1..], ss, k)
  }

  /** Such a session asks for a decision of its own. */
  lemma {:induction false} AskedIsDecided(w: World, c: Cluster, steps: seq<Step>, k: Key)
    requires Clusters.Legal(w, c, steps) && c.session.Some? && SessionAsks(w, c, steps, k)
    ensures ValidSnapshot(c.session.value.ss) && k in Decisions(c.session.value.ss)
    decreases |steps|
  {
    if !AsksFor(w, c, steps[0], k) {
      AskedIsDecided(w, Clusters.Next(w, c, steps[0]), steps[1..], k);
    }
  }

  lemma {:induction false} OpenedIsDecided(w: World, c: Cluster, steps: seq<Step>, ss: Snapshot, k: Key)
    requires Clusters.Legal(w, c, steps) && OpenedAndAsked(w, c, steps, ss, k)
    ensures ValidSnapshot(ss) && k in Decisions(ss)
    decreases |steps|
  {
    var t := Clusters.Next(w, c, steps[0]);
    if OpenedAndAsked(w, t, steps[1..], ss, k) {
      OpenedIsDecided(w, t, steps[1..], ss, k);
    } else {
      AskedIsDecided(w, t, steps[1..], k);
    }
  }

  // ----- patches go back to sessions -----

  lemma OutstandingStep(v: P.KeyView, e: P.KeyEvent)
    requires P.KeyInv(v) && P.KeyEnabled(v, e) && P.Outstanding(P.KeyNext(v, e)) > 0
    ensures P.Outstanding(v) > 0 || e.Called?
  {
  }

  lemma OutstandingBefore(w: World, c: Cluster, a: Step, k: Key)
    requires P.Inv(c.p) && Clusters.Enabled(w, c, a) && P.Outstanding(P.ViewOf(NextP(w, c, a), k)) > 0
    ensures P.Outstanding(P.ViewOf(c.p, k)) > 0 || AsksFor(w, c, a, k)
  {
    EventStep(w, c, a, k);
    OutstandingStep(P.ViewOf(c.p, k), Event(w, c, a, k));
    if Event(w, c, a, k).Called? {
      CalledByRequest(w, c, a, k);
    }
  }

  lemma PatchIsOutstanding(c: Cluster, k: Key)
    requires P.Inv(c.p) && P.Patching(k) in c.p.procs
    ensures P.Outstanding(P.ViewOf(c.p, k)) > 0
  {
    assert P.KeyInv(P.ViewOf(c.p, k));
  }

  /** Where an outstanding request comes from: it was outstanding at the start, the session open at
      the start made it, or a session of the run did. */
  ghost predicate Origin(w: World, c: Cluster, steps: seq<Step>, k: Key)
    requires Clusters.Legal(w, c, steps)
  {
    || P.Outstanding(P.ViewOf(c.p, k)) > 0
    || (c.session.Some? && SessionAsks(w, c, steps, k))
    || exists ss :: OpenedAndAsked(w, c, steps, ss, k)
  }

  lemma OriginStep(w: World, c: Cluster, steps: seq<Step>, k: Key)
    requires P.Inv(c.p) && Clusters.Legal(w, c, steps) && steps != []
    requires Origin(w, Clusters.Next(w, c, steps[0]), steps[1..], k)
    ensures Origin(w, c, steps, k)
  {
    var t := Clusters.Next(w, c, steps[0]);
    if P.Outstanding(P.ViewOf(t.p, k)) > 0 {
      OutstandingBefore(w, c, steps[0], k);
    } else if ss :| OpenedAndAsked(w, t, steps[1..], ss, k) {
      assert OpenedAndAsked(w, c, steps, ss, k);
    } else if steps[0].BeginSession? {
      assert OpenedAndAsked(w, c, steps, TakeSnapshot(c.p.cache), k);
    }
  }

  lemma {:induction false} OutstandingHasOrigin(w: World, c: Cluster, steps: seq<Step>, k: Key)
    requires P.Inv(c.p) && Clusters.Legal(w, c, steps)
    requires P.Outstanding(P.ViewOf(Clusters.Exec(w, c, steps).p, k)) > 0
    ensures Origin(w, c, steps, k)
    decreases |steps|
  {
    if steps != [] {
      EventStep(w, c, steps[0], k);
      OutstandingHasOrigin(w, Clusters.Next(w, c, steps[0]), steps[1..], k);
      OriginStep(w, c, steps, k);
    }
  }

  lemma {:induction false} InvAlong(w: World, c: Cluster, steps: seq<Step>)
    requires P.Inv(c.p) && Clusters.Legal(w, c, steps)
    ensures P.Inv(Clusters.Exec(w, c, steps).p)
    decreases |steps|
  {
    if steps != [] {
      EventStep(w, c, steps[0], Key("", ""));
      InvAlong(w, Clusters.Next(w, c, steps[0]), steps[1..]);
    }
  }

  /** A session of the run, opened on a snapshot of the cache as it was then, asked for the key, and
      the binding had fitted what its queue had allocated when its turn came. */
  ghost predicate AskedAndFitted(w: World, c: Cluster, steps: seq<Step>, k: Key)
    requires Clusters.Legal(w, c, steps)
  {
    exists ss :: OpenedAndAsked(w, c, steps, ss, k) && Fitted(ss, k)
  }

  ghost predicate Fitted(ss: Snapshot, k: Key) {
    ValidSnapshot(ss) && k in Decisions(ss) && exists m: nat :: FitAt(ss, Tries(ss), k, m)
  }

  /** The gate: in any run, whatever happens to queues, clusters, classes and suspensions and
      whatever the informer delivers when, a patch that is under way was asked for by a session of
      the run that found the binding to fit. */
  lemma PatchWasAsked(w: World, c: Cluster, steps: seq<Step>, k: Key)
    requires Resting(c) && Clusters.Legal(w, c, steps)
    requires P.Patching(k) in Clusters.Exec(w, c, steps).p.procs
    ensures AskedAndFitted(w, c, steps, k)
  {
    InvAlong(w, c, steps);
    PatchIsOutstanding(Clusters.Exec(w, c, steps), k);
    OutstandingHasOrigin(w, c, steps, k);
    var ss :| OpenedAndAsked(w, c, steps, ss, k);
    OpenedIsDecided(w, c, steps, ss, k);
    RequestedFit(ss, k);
  }

  predicate AppliesPatch(a: Step, k: Key) {
    a.Return? && a.key == k && a.applied
  }

  lemma {:induction false} LegalPrefix(w: World, c: Cluster, steps: seq<Step>, n: nat)
    requires Clusters.Legal(w, c, steps) && n <= |steps|
    ensures Clusters.Legal(w, c, steps[..n])
    ensures n < |steps| ==> Clusters.Enabled(w, Clusters.Exec(w, c, steps[..n]), steps[n])
    decreases n
  {
    if n > 0 {
      LegalPrefix(w, Clusters.Next(w, c, steps[0]), steps[1..], n - 1);
      assert steps[..n][1..] == steps[1..][..n - 1];
    }
  }

  /** The patch that is the n-th step of the run was asked for before. */
  ghost predicate AskedBefore(w: World, c: Cluster, steps: seq<Step>, n: nat, k: Key)
    requires Clusters.Legal(w, c, steps)
  {
    n < |steps| && AppliesPatch(steps[n], k) && Clusters.Legal(w, c, steps[..n]) && AskedAndFitted(w, c, steps[..n], k)
  }

  /** A patch that was applied in a run was asked for, earlier in the run, by a session that found
      the binding to fit. */
  lemma AppliedWasAsked(w: World, c: Cluster, steps: seq<Step>, n: nat, k: Key)
    requires Resting(c) && Clusters.Legal(w, c, steps) && n < |steps| && AppliesPatch(steps[n], k)
    ensures AskedBefore(w, c, steps, n, k)
  {
    LegalPrefix(w, c, steps, n);
    PatchWasAsked(w, c, steps[..n], k);
  }

  // ----- what lifts a suspension -----

  ghost predicate Lifted(vs: seq<Option<Suspension>>) {
    exists i :: 0 <= i < |vs| && !SuspendedAt(vs, i)
  }

  ghost predicate EverLifted(c: Cluster, k: Key) {
    k in c.versions && Lifted(c.versions[k])
  }

  /** A patch of the key was applied during the run. */
  ghost predicate PatchApplied(steps: seq<Step>, k: Key) {
    exists n :: 0 <= n < |steps| && AppliesPatch(steps[n], k)
  }

  /** Somebody else than the dispatcher lifts the key's suspension: an edit takes it away, or the
      binding is created without one and the webhook, its workload not being registered, adds none. */
  predicate LiftsElsewhere(w: World, c: Cluster, a: Step, k: Key) {
    match a
    case Edit(j, s) => j == k && Lifts(c, k, s)
    case Create(j, r) =>
      && j == k && TryGetNewWorkloadFunc(w.registry, r.ref) != Registered
      && r.doc.Some? && !SchedulingSuspended(ReadSuspension(r.doc.value))
    case _ => false
  }

  ghost predicate LiftedElsewhere(w: World, c: Cluster, steps: seq<Step>, k: Key)
    requires Clusters.Legal(w, c, steps)
    decreases |steps|
  {
    && steps != []
    && (LiftsElsewhere(w, c, steps[0], k) || LiftedElsewhere(w, Clusters.Next(w, c, steps[0]), steps[1..], k))
  }

  lemma LiftedAppended(vs: seq<Option<Suspension>>, s: Option<Suspension>)
    ensures Lifted(vs + [s]) <==> Lifted(vs) || !SchedulingSuspended(s)
  {
    var r := vs + [s];
    assert forall i | 0 <= i < |vs| :: SuspendedAt(r, i) == SuspendedAt(vs, i);
    assert SuspendedAt(r, |vs|) == SchedulingSuspended(s);
  }

  lemma NotLiftedLast(vs: seq<Option<Suspension>>)
    requires vs != [] && !Lifted(vs)
    ensures SchedulingSuspended(Last(vs))
  {
    assert SuspendedAt(vs, |vs| - 1);
  }

  lemma CreateLifts(w: World, c: Cluster, k: Key, r: Admission.Request)
    requires Clusters.Enabled(w, c, Clusters.Create(k, r))
    ensures Lifted(NextVersions(w, c, Clusters.Create(k, r))[k]) <==> LiftsElsewhere(w, c, Clusters.Create(k, r), k)
  {
    AdmittedIsSuspendedExactly(w.registry, r);
    LiftedAppended([], StoredSuspension(w, r));
    assert [] + [StoredSuspension(w, r)] == [StoredSuspension(w, r)];
  }

  lemma EditLifts(w: World, c: Cluster, k: Key, s: Option<Suspension>)
    requires Clusters.Enabled(w, c, Edit(k, s))
    ensures Lifted(NextVersions(w, c, Edit(k, s))[k]) <==> EverLifted(c, k) || LiftsElsewhere(w, c, Edit(k, s), k)
  {
    LiftedAppended(c.versions[k], s);
    if !EverLifted(c, k) {
      NotLiftedLast(c.versions[k]);
    }
  }

  lemma ReturnLifts(w: World, c: Cluster, k: Key, ok: bool, applied: bool)
    requires Clusters.Enabled(w, c, Return(k, ok, applied)) && k in c.versions
    ensures Lifted(NextVersions(w, c, Return(k, ok, applied))[k]) <==> EverLifted(c, k) || applied
  {
    LiftedAppended(c.versions[k], Patched(false));
  }

  lemma LiftStep(w: World, c: Cluster, a: Step, k: Key)
    requires Clusters.Enabled(w, c, a)
    ensures EverLifted(Clusters.Next(w, c, a), k)
       <==> EverLifted(c, k) || LiftsElsewhere(w, c, a, k) || AppliesPatch(a, k)
  {
    match a {
      case Create(j, r) =>
        if j == k {
          CreateLifts(w, c, k, r);
        }
      case Edit(j, s) =>
        if j == k {
          EditLifts(w, c, k, s);
        }
      case Return(j, ok, applied) =>
        if j == k && k in c.versions {
          ReturnLifts(w, c, k, ok, applied);
        }
      case _ =>
    }
  }

  lemma PatchAppliedFirst(steps: seq<Step>, k: Key)
    requires steps != []
    ensures PatchApplied(steps, k) <==> AppliesPatch(steps[0], k) || PatchApplied(steps[1..], k)
  {
    if n :| 0 <= n < |steps| && AppliesPatch(steps[n], k) {
      assert n > 0 ==> steps[1..][n - 1] == steps[n];
    }
    if n :| 0 <= n < |steps[1..]| && AppliesPatch(steps[1..][n], k) {
      assert steps[n + 1] == steps[1..][n];
    }
  }

  /** What lifts a suspension in the API, exactly: a binding has, or has had, a version that is not
      suspended iff it had one before the run, a patch of its key was applied, an edit took the
      suspension away, or it was admitted without one because its workload is not registered. */
  lemma {:induction false} LiftedExactly(w: World, c: Cluster, steps: seq<Step>, k: Key)
    requires Clusters.Legal(w, c, steps)
    ensures EverLifted(Clusters.Exec(w, c, steps), k)
       <==> EverLifted(c, k) || PatchApplied(steps, k) || LiftedElsewhere(w, c, steps, k)
    decreases |steps|
  {
    if steps != [] {
      LiftStep(w, c, steps[0], k);
      LiftedExactly(w, Clusters.Next(w, c, steps[0]), steps[1..], k);
      PatchAppliedFirst(steps, k);
    }
  }

  /** A binding created in the run that is not suspended any more, and that nobody else lifted, was
      lifted by a patch that a session of the run had asked for, having found it to fit. */
  lemma LiftedWasAsked(w: World, c: Cluster, steps: seq<Step>, k: Key)
    requires Resting(c) && Clusters.Legal(w, c, steps) && k !in c.versions
    requires EverLifted(Clusters.Exec(w, c, steps), k) && !LiftedElsewhere(w, c, steps, k)
    ensures exists n: nat :: AskedBefore(w, c, steps, n, k)
  {
    LiftedExactly(w, c, steps, k);
    var n :| 0 <= n < |steps| && AppliesPatch(steps[n], k);
    AppliedWasAsked(w, c, steps, n, k);
  }
}
