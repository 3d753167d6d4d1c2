/** Runs of the whole system: what every run keeps, that the dispatcher never gets stuck, and how
    runs are put together. */
module Runs {
  import opened Api
  import opened Sessions
  import opened CacheModel
  import opened Clusters
  import P = Protocol

  // ----- what every run keeps -----

  ghost predicate UidOk(w: World, k: Key, b: ResourceBindingInfo) {
    k in w.profiles && b.rb.uid == w.profiles[k].uid
  }

  ghost predicate UidsOk(w: World, infos: map<Key, ResourceBindingInfo>) {
    forall k | k in infos :: UidOk(w, k, infos[k])
  }

  lemma UidsAreUnique(w: World, infos: map<Key, ResourceBindingInfo>)
    requires ValidWorld(w) && UidsOk(w, infos)
    ensures UniqueUids(infos)
  {
    forall j, k | j in infos && k in infos && UidAt(infos, j) == UidAt(infos, k) ensures j == k {
      assert UidOk(w, j, infos[j]) && UidOk(w, k, infos[k]);
    }
  }

  ghost predicate SessionSound(s: Option<OpenSession>) {
    s.Some? ==> ValidSnapshot(s.value.ss) && s.value.done <= |Decisions(s.value.ss)|
  }

  /** The protocol's invariant; queues carry their own names and cached bindings the UID of their
      key; and the dispatcher is somewhere in a session on a valid snapshot, or in none. */
  ghost predicate Wellformed(w: World, c: Cluster) {
    && P.Inv(c.p) && c.p.cache.defaultQueue == w.defaultQueue && ValidQueues(c.p.cache)
    && UidsOk(w, c.p.cache.infos) && SessionSound(c.session)
  }

  ghost predicate UidKept(w: World, x: P.Action) {
    x.SetBinding? ==> x.rb.key in w.profiles && x.rb.uid == w.profiles[x.rb.key].uid
  }

  lemma UidStep(w: World, s: P.State, x: P.Action, k: Key)
    requires P.Enabled(s, x) && UidKept(w, x) && (k in s.cache.infos ==> UidOk(w, k, s.cache.infos[k]))
    ensures k in P.NextCache(s.cache, x).infos ==> UidOk(w, k, P.NextCache(s.cache, x).infos[k])
  {
  }

  lemma UidsStep(w: World, s: P.State, x: P.Action)
    requires P.Enabled(s, x) && UidKept(w, x) && UidsOk(w, s.cache.infos)
    ensures UidsOk(w, P.NextCache(s.cache, x).infos)
  {
    forall k | k in P.NextCache(s.cache, x).infos ensures UidOk(w, k, P.NextCache(s.cache, x).infos[k]) {
      UidStep(w, s, x, k);
    }
  }

  lemma ConfigStep(w: World, s: P.State, x: P.Action)
    requires P.Enabled(s, x) && ValidQueues(s.cache) && (x.ConfigChange? ==> ProperQueues(x.queues))
    ensures P.NextCache(s.cache, x).defaultQueue == s.cache.defaultQueue && ValidQueues(P.NextCache(s.cache, x))
  {
  }

  lemma ActionFacts(w: World, c: Cluster, a: Step)
    requires Clusters.Enabled(w, c, a) && Action(w, c, a).Some?
    ensures var x := Action(w, c, a).value;
            P.Enabled(c.p, x) && UidKept(w, x) && (x.ConfigChange? ==> ProperQueues(x.queues))
  {
  }

  lemma CacheStep(w: World, c: Cluster, a: Step)
    requires Clusters.Enabled(w, c, a) && ValidQueues(c.p.cache) && UidsOk(w, c.p.cache.infos)
    ensures NextP(w, c, a).cache.defaultQueue == c.p.cache.defaultQueue
    ensures ValidQueues(NextP(w, c, a).cache) && UidsOk(w, NextP(w, c, a).cache.infos)
  {
    match Action(w, c, a) {
      case Some(x) =>
        ActionFacts(w, c, a);
        UidsStep(w, c.p, x);
        ConfigStep(w, c.p, x);
      case None =>
    }
  }

  lemma SessionStep(w: World, c: Cluster, a: Step)
    requires Wellformed(w, c) && Clusters.Enabled(w, c, a)
    ensures SessionSound(NextSession(w, c, a))
  {
    if a.BeginSession? {
      SnapshotIsValid(c.p.cache);
    }
  }

  lemma WellformedStep(w: World, c: Cluster, a: Step)
    requires Wellformed(w, c) && Clusters.Enabled(w, c, a)
    ensures Wellformed(w, Clusters.Next(w, c, a))
  {
    EventStep(w, c, a, Key("", ""));
    CacheStep(w, c, a);
    SessionStep(w, c, a);
  }

  lemma {:induction false} WellformedAlong(w: World, c: Cluster, steps: seq<Step>)
    requires Wellformed(w, c) && Clusters.Legal(w, c, steps)
    ensures Wellformed(w, Clusters.Exec(w, c, steps))
    decreases |steps|
  {
    if steps != [] {
      WellformedStep(w, c, steps[0]);
      WellformedAlong(w, Clusters.Next(w, c, steps[0]), steps[1..]);
    }
  }

  lemma SessionGoesOn(w: World, c: Cluster)
    requires SessionSound(c.session)
    ensures Clusters.Enabled(w, c, NextRequest) <==> c.session.Some? && !Clusters.Enabled(w, c, EndSession)
  {
  }

  lemma SessionOpens(w: World, c: Cluster)
    requires UniqueUids(c.p.cache.infos)
    ensures Clusters.Enabled(w, c, BeginSession) <==> c.session.None?
  {
  }

  /** After any run the dispatcher can go on: open a session, or else make the next request or end
      the session, and never both. The conditions under which a snapshot and its decisions are
      defined therefore never keep a run from going on. */
  lemma DispatcherNeverStuck(w: World, c: Cluster, steps: seq<Step>)
    requires ValidWorld(w) && Wellformed(w, c) && Clusters.Legal(w, c, steps)
    ensures var t := Clusters.Exec(w, c, steps);
            && (Clusters.Enabled(w, t, BeginSession) <==> t.session.None?)
            && (Clusters.Enabled(w, t, NextRequest) <==> t.session.Some? && !Clusters.Enabled(w, t, EndSession))
  {
    var t := Clusters.Exec(w, c, steps);
    assert SessionSound(t.session) && UidsOk(w, t.p.cache.infos) by { WellformedAlong(w, c, steps); }
    UidsAreUnique(w, t.p.cache.infos);
    SessionOpens(w, t);
    SessionGoesOn(w, t);
  }

  // ----- putting runs together -----

  /** Which kinds of steps a run keeps to; steady but for one step, if there is one. */
  datatype Conduct = Conduct(steady: bool, calm: bool, but: Option<Step>)

  /** A step that leaves queues and clusters alone, and is steady and calm where that is asked for. */
  ghost predicate PathStep(w: World, c: Cluster, a: Step, conduct: Conduct) {
    && Clusters.Enabled(w, c, a) && !a.Reconfigure?
    && (conduct.steady && conduct.but != Some(a) ==> Steady(w, c, a)) && (conduct.calm ==> Calm(c, a))
  }

  /** Such a step leads from c to t. */
  ghost predicate GoesTo(w: World, c: Cluster, a: Step, conduct: Conduct, t: Cluster) {
    PathStep(w, c, a, conduct) && t == Clusters.Next(w, c, a)
  }

  /** Such steps lead from c to t. */
  ghost predicate Path(w: World, c: Cluster, steps: seq<Step>, conduct: Conduct, t: Cluster)
    decreases |steps|
  {
    if steps == [] then c == t
    else exists n :: GoesTo(w, c, steps[0], conduct, n) && Path(w, n, steps[1..], conduct, t)
  }

  lemma PathOne(w: World, c: Cluster, a: Step, conduct: Conduct, t: Cluster)
    requires GoesTo(w, c, a, conduct, t)
    ensures Path(w, c, [a], conduct, t)
  {
    assert Path(w, t, [a][1..], conduct, t);
  }

  lemma PathCons(w: World, c: Cluster, a: Step, n: Cluster, rest: seq<Step>, conduct: Conduct, t: Cluster)
    requires GoesTo(w, c, a, conduct, n) && Path(w, n, rest, conduct, t)
    ensures Path(w, c, [a] + rest, conduct, t)
  {
    assert ([a] + rest)[1..] == rest;
  }

  lemma {:induction false} PathConcat(w: World, c: Cluster, xs: seq<Step>, m: Cluster, ys: seq<Step>, conduct: Conduct,
                                      t: Cluster)
    requires Path(w, c, xs, conduct, m) && Path(w, m, ys, conduct, t)
    ensures Path(w, c, xs + ys, conduct, t)
    decreases |xs|
  {
    if xs == [] {
      assert xs + ys == ys;
    } else {
      var n :| GoesTo(w, c, xs[0], conduct, n) && Path(w, n, xs[1..], conduct, m);
      PathConcat(w, n, xs[1..], m, ys, conduct, t);
      PathCons(w, c, xs[0], n, xs[1..] + ys, conduct, t);
      P.HeadFirst(xs, ys);
    }
  }

  /** Every step is steady but this one. */
  ghost predicate SteadyBut(w: World, c: Cluster, steps: seq<Step>, but: Step)
    requires Clusters.Legal(w, c, steps)
    decreases |steps|
  {
    steps != [] ==>
      && (steps[0] == but || Steady(w, c, steps[0]))
      && SteadyBut(w, Clusters.Next(w, c, steps[0]), steps[1..], but)
  }

  lemma NoneReconfigures(steps: seq<Step>)
    requires steps != [] && !steps[0].Reconfigure? && forall a | a in steps[1..] :: !a.Reconfigure?
    ensures forall a | a in steps :: !a.Reconfigure?
  {
    assert steps == [steps[0]] + steps[1..];
  }

  lemma {:induction false} PathIsRun(w: World, c: Cluster, steps: seq<Step>, conduct: Conduct, t: Cluster)
    requires Path(w, c, steps, conduct, t)
    ensures Clusters.Legal(w, c, steps)
    ensures conduct.calm ==> CalmRun(w, c, steps)
    ensures conduct.steady && conduct.but.None? ==> SteadyRun(w, c, steps)
    ensures conduct.steady && conduct.but.Some? ==> SteadyBut(w, c, steps, conduct.but.value)
    ensures Clusters.Exec(w, c, steps) == t && forall a | a in steps :: !a.Reconfigure?
    decreases |steps|
  {
    if steps != [] {
      var n :| GoesTo(w, c, steps[0], conduct, n) && Path(w, n, steps[1..], conduct, t);
      PathIsRun(w, n, steps[1..], conduct, t);
      NoneReconfigures(steps);
    }
  }

  lemma PathTwo(w: World, c: Cluster, a: Step, m: Cluster, b: Step, conduct: Conduct, t: Cluster)
    requires GoesTo(w, c, a, conduct, m) && GoesTo(w, m, b, conduct, t)
    ensures Path(w, c, [a] + [b], conduct, t)
  {
    PathOne(w, m, b, conduct, t);
    PathCons(w, c, a, m, [b], conduct, t);
  }

  lemma PathThen(w: World, c: Cluster, xs: seq<Step>, m: Cluster, a: Step, conduct: Conduct, t: Cluster)
    requires Path(w, c, xs, conduct, m) && GoesTo(w, m, a, conduct, t)
    ensures Path(w, c, xs + [a], conduct, t)
  {
    PathOne(w, m, a, conduct, t);
    PathConcat(w, c, xs, m, [a], conduct, t);
  }
}
