/** One period of the dispatcher in the system of steps: with nobody else acting in between, its
    steps do to the cache what RunOnce does to the cache object. */
module Periods {
  import opened Api
  import opened Sessions
  import opened CacheModel
  import opened Clusters
  import opened Runs

  predicate DispatcherStep(a: Step) {
    a.BeginSession? || a.NextRequest? || a.EndSession?
  }

  /** Nothing is different but the cache, the session and what was asked for. */
  ghost predicate OnlyCache(c: Cluster, t: Cluster) {
    && t.versions == c.versions && t.seen == c.seen && t.deleted == c.deleted && t.closed == c.closed
    && t.p.procs == c.p.procs
  }

  ghost predicate Reaches(w: World, c: Cluster, steps: seq<Step>, conduct: Conduct, t: Cluster, cache: CacheState) {
    && (forall a | a in steps :: DispatcherStep(a))
    && Path(w, c, steps, conduct, t)
    && OnlyCache(c, t) && t.session == None && t.p.cache == cache
  }

  lemma ReachesCons(w: World, c: Cluster, a: Step, n: Cluster, rest: seq<Step>, conduct: Conduct, t: Cluster,
                    cache: CacheState)
    requires DispatcherStep(a) && GoesTo(w, c, a, conduct, n) && OnlyCache(c, n)
    requires Reaches(w, n, rest, conduct, t, cache)
    ensures Reaches(w, c, [a] + rest, conduct, t, cache)
  {
    PathCons(w, c, a, n, rest, conduct, t);
  }

  lemma OneMore(base: CacheState, ds: seq<Key>, n: nat)
    requires n < |ds|
    ensures UnSuspendAll(base, ds[..n + 1]) == UnSuspend(UnSuspendAll(base, ds[..n]), ds[n])
  {
    assert ds[..n + 1][..n] == ds[..n] && ds[..n + 1][n] == ds[n];
  }

  lemma RequestEffect(w: World, c: Cluster, k: Key)
    requires Clusters.Enabled(w, c, NextRequest) && Decisions(c.session.value.ss)[c.session.value.done] == k
    ensures var t := Clusters.Next(w, c, NextRequest);
            && OnlyCache(c, t) && t.p.cache == UnSuspend(c.p.cache, k)
            && t.session == Some(OpenSession(c.session.value.ss, c.session.value.done + 1))
  {
  }

  lemma RequestStep(w: World, c: Cluster, conduct: Conduct, base: CacheState, ds: seq<Key>, n: nat) returns (t: Cluster)
    requires c.session.Some? && ValidSnapshot(c.session.value.ss) && Decisions(c.session.value.ss) == ds
    requires c.session.value.done == n < |ds| && c.p.cache == UnSuspendAll(base, ds[..n])
    ensures GoesTo(w, c, NextRequest, conduct, t) && OnlyCache(c, t)
    ensures t.session == Some(OpenSession(c.session.value.ss, n + 1)) && t.p.cache == UnSuspendAll(base, ds[..n + 1])
  {
    t := Clusters.Next(w, c, NextRequest);
    assert OnlyCache(c, t) && t.p.cache == UnSuspend(c.p.cache, ds[n])
           && t.session == Some(OpenSession(c.session.value.ss, n + 1)) by {
      RequestEffect(w, c, ds[n]);
    }
    OneMore(base, ds, n);
  }

  lemma EndStep(w: World, c: Cluster, conduct: Conduct) returns (t: Cluster)
    requires c.session.Some? && ValidSnapshot(c.session.value.ss)
    requires c.session.value.done == |Decisions(c.session.value.ss)|
    ensures Reaches(w, c, [EndSession], conduct, t, c.p.cache)
  {
    t := Clusters.Next(w, c, EndSession);
    PathOne(w, c, EndSession, conduct, t);
  }

  lemma {:induction false} RequestSteps(w: World, c: Cluster, conduct: Conduct, base: CacheState, ds: seq<Key>, n: nat)
    returns (steps: seq<Step>, t: Cluster)
    requires c.session.Some? && ValidSnapshot(c.session.value.ss) && Decisions(c.session.value.ss) == ds
    requires c.session.value.done == n <= |ds| && c.p.cache == UnSuspendAll(base, ds[..n])
    ensures Reaches(w, c, steps, conduct, t, UnSuspendAll(base, ds))
    decreases |ds| - n
  {
    if n == |ds| {
      assert ds[..n] == ds;
      t := EndStep(w, c, conduct);
      steps := [EndSession];
    } else {
      var m := RequestStep(w, c, conduct, base, ds, n);
      var rest;
      rest, t := RequestSteps(w, m, conduct, base, ds, n + 1);
      ReachesCons(w, c, NextRequest, m, rest, conduct, t, UnSuspendAll(base, ds));
      steps := [NextRequest] + rest;
    }
  }

  lemma BeginStep(w: World, c: Cluster, conduct: Conduct) returns (t: Cluster)
    requires c.session == None && UniqueUids(c.p.cache.infos) && (conduct.steady ==> ActiveKnown(c.p.cache))
    ensures GoesTo(w, c, BeginSession, conduct, t) && OnlyCache(c, t)
    ensures t.session == Some(OpenSession(TakeSnapshot(c.p.cache), 0)) && t.p.cache == WithPriorities(c.p.cache)
  {
    t := Clusters.Next(w, c, BeginSession);
  }

  lemma NoRequestYet(base: CacheState, ds: seq<Key>)
    ensures UnSuspendAll(base, ds[..0]) == base
  {
    assert ds[..0] == [];
  }

  /** A period run undisturbed: priorities written, then one request for every decision. */
  lemma UndisturbedPeriod(w: World, c: Cluster, conduct: Conduct) returns (steps: seq<Step>, t: Cluster)
    requires c.session == None && UniqueUids(c.p.cache.infos) && ValidSnapshot(TakeSnapshot(c.p.cache))
    requires conduct.steady ==> ActiveKnown(c.p.cache)
    ensures Reaches(w, c, steps, conduct, t,
                    UnSuspendAll(WithPriorities(c.p.cache), Decisions(TakeSnapshot(c.p.cache))))
  {
    var base, ds := WithPriorities(c.p.cache), Decisions(TakeSnapshot(c.p.cache));
    var n := BeginStep(w, c, conduct);
    NoRequestYet(base, ds);
    var rest;
    rest, t := RequestSteps(w, n, conduct, base, ds, 0);
    ReachesCons(w, c, BeginSession, n, rest, conduct, t, UnSuspendAll(base, ds));
    steps := [BeginSession] + rest;
  }
}
