/** A session seen from one queue: a greedy scan of that queue's sorted bindings alone. */
module Greedy {
  import opened Resources
  import opened Api
  import opened Sorting
  import opened Orders
  import opened Rounds
  import opened Sessions

  datatype Scan = Scan(alloc: Resource, taken: seq<ResourceBindingInfo>)

  /** Take a binding iff it names its queue itself and fits what is allocated so far. */
  function TakeOne(limit: Resource, scan: Scan, b: ResourceBindingInfo): Scan {
    if b.queue != "" && Fits(scan.alloc, limit, Request(b)) then
      Scan(Add(scan.alloc, Request(b)), scan.taken + [b])
    else scan
  }

  ghost function GreedyScan(limit: Resource, start: Resource, bs: seq<ResourceBindingInfo>): Scan {
    if bs == [] then Scan(start, [])
    else TakeOne(limit, GreedyScan(limit, start, bs[..|bs| - 1]), bs[|bs| - 1])
  }

  // ----- properties of the scan -----

  lemma {:induction false} ScanGrows(limit: Resource, start: Resource, bs: seq<ResourceBindingInfo>, n: nat, d: Dim)
    requires n <= |bs|
    ensures Get(GreedyScan(limit, start, bs[..n]).alloc, d) <= Get(GreedyScan(limit, start, bs).alloc, d)
    decreases |bs|
  {
    if n < |bs| {
      assert bs[..|bs| - 1][..n] == bs[..n];
      ScanGrows(limit, start, bs[..|bs| - 1], n, d);
    } else {
      assert bs[..n] == bs;
    }
  }

  lemma {:induction false} TakenListed(limit: Resource, start: Resource, bs: seq<ResourceBindingInfo>,
                                       b: ResourceBindingInfo)
    requires b in GreedyScan(limit, start, bs).taken
    ensures b in bs
    decreases |bs|
  {
    if bs != [] && b != bs[|bs| - 1] {
      TakenListed(limit, start, bs[..|bs| - 1], b);
    }
  }

  lemma OthersKeep(limit: Resource, scan: Scan, b: ResourceBindingInfo, other: ResourceBindingInfo)
    requires other != b
    ensures other in TakeOne(limit, scan, b).taken <==> other in scan.taken
  {
  }

  lemma TakenOnce(limit: Resource, scan: Scan, b: ResourceBindingInfo)
    requires b !in scan.taken
    ensures b in TakeOne(limit, scan, b).taken <==> b.queue != "" && Fits(scan.alloc, limit, Request(b))
  {
  }

  /** Whether a binding is taken is settled at its turn. */
  lemma {:induction false} TakenAtItsTurn(limit: Resource, start: Resource, bs: seq<ResourceBindingInfo>, i: nat)
    requires i < |bs| && Distinct(bs)
    ensures bs[i] in GreedyScan(limit, start, bs).taken
       <==> bs[i].queue != "" && Fits(GreedyScan(limit, start, bs[..i]).alloc, limit, Request(bs[i]))
    decreases |bs|
  {
    var init, b := bs[..|bs| - 1], bs[|bs| - 1];
    DistinctInit(bs);
    if i < |init| {
      assert init[..i] == bs[..i] && init[i] == bs[i];
      TakenAtItsTurn(limit, start, init, i);
      OthersKeep(limit, GreedyScan(limit, start, init), b, bs[i]);
    } else {
      if b in GreedyScan(limit, start, init).taken {
        TakenListed(limit, start, init, b);
      }
      TakenOnce(limit, GreedyScan(limit, start, init), b);
    }
  }

  lemma FitsLess(alloc: Resource, more: Resource, limit: Resource, request: Resource, larger: Resource)
    requires Fits(more, limit, larger)
    requires forall d :: Get(alloc, d) <= Get(more, d) && Get(request, d) <= Get(larger, d)
    ensures Fits(alloc, limit, request)
  {
    forall d | d in request && request[d] > 0 ensures Get(Add(alloc, request), d) <= Get(limit, d) {
      assert Get(request, d) <= Get(larger, d);
      assert Get(Add(more, larger), d) <= Get(limit, d);
    }
  }

  /** Maximality: what the scan leaves out does not fit at the end either. */
  lemma ScanIsMaximal(limit: Resource, start: Resource, bs: seq<ResourceBindingInfo>, i: nat)
    requires i < |bs| && Distinct(bs)
    requires bs[i].queue != "" && bs[i] !in GreedyScan(limit, start, bs).taken
    ensures !Fits(GreedyScan(limit, start, bs).alloc, limit, Request(bs[i]))
  {
    TakenAtItsTurn(limit, start, bs, i);
    forall d ensures Get(GreedyScan(limit, start, bs[..i]).alloc, d) <= Get(GreedyScan(limit, start, bs).alloc, d) {
      ScanGrows(limit, start, bs, i, d);
    }
    var end := GreedyScan(limit, start, bs).alloc;
    if Fits(end, limit, Request(bs[i])) {
      FitsLess(GreedyScan(limit, start, bs[..i]).alloc, end, limit, Request(bs[i]), Request(bs[i]));
    }
  }

  /** No inversion: a later binding that asks at least as much is never taken instead. */
  lemma ScanHasNoInversion(limit: Resource, start: Resource, bs: seq<ResourceBindingInfo>, i: nat, j: nat)
    requires i < j < |bs| && Distinct(bs)
    requires bs[i].queue != "" && bs[j] in GreedyScan(limit, start, bs).taken
    requires forall d :: Get(Request(bs[i]), d) <= Get(Request(bs[j]), d)
    ensures bs[i] in GreedyScan(limit, start, bs).taken
  {
    TakenAtItsTurn(limit, start, bs, i);
    TakenAtItsTurn(limit, start, bs, j);
    assert bs[..j][..i] == bs[..i];
    var before, after := GreedyScan(limit, start, bs[..i]).alloc, GreedyScan(limit, start, bs[..j]).alloc;
    forall d ensures Get(before, d) <= Get(after, d) {
      ScanGrows(limit, start, bs[..j], i, d);
    }
    FitsLess(before, after, limit, Request(bs[i]), Request(bs[j]));
  }

  // ----- the session refines it, queue by queue -----

  ghost predicate Isolated(ss: Snapshot, ts: seq<QueueTry>, q: QueueInfo, st: SessionState) {
    var scan := GreedyScan(Limit(ss, q), Load(ss, ss.infos, q.name), Project(ts, q));
    q.name in st.alloc && st.alloc[q.name] == scan.alloc && Project(st.dispatched, q) == scan.taken
  }

  lemma ProjectSnoc(ts: seq<QueueTry>, t: QueueTry, q: QueueInfo)
    ensures Project(ts + [t], q) == if t.queue == q then Project(ts, q) + [t.binding] else Project(ts, q)
  {
    assert (ts + [t])[..|ts|] == ts;
  }

  lemma ScanSnoc(limit: Resource, start: Resource, bs: seq<ResourceBindingInfo>, b: ResourceBindingInfo)
    ensures GreedyScan(limit, start, bs + [b]) == TakeOne(limit, GreedyScan(limit, start, bs), b)
  {
    assert (bs + [b])[..|bs|] == bs;
  }

  /** A try at the queue itself is one step of its scan. */
  lemma OwnTry(ss: Snapshot, st: SessionState, t: QueueTry, scan: Scan)
    requires t.queue.uid == t.queue.name && t.queue.name in st.alloc
    requires t.binding.queue in st.alloc <==> t.binding.queue != ""
    requires t.binding.queue != "" ==> t.binding.queue == t.queue.uid
    requires st.alloc[t.queue.name] == scan.alloc && Project(st.dispatched, t.queue) == scan.taken
    ensures var after, next := TryBinding(ss, st, t), TakeOne(Limit(ss, t.queue), scan, t.binding);
            && t.queue.name in after.alloc && after.alloc[t.queue.name] == next.alloc
            && Project(after.dispatched, t.queue) == next.taken
  {
    ProjectSnoc(st.dispatched, t, t.queue);
  }

  /** A try at another queue changes nothing for this one. */
  lemma OtherTry(ss: Snapshot, st: SessionState, t: QueueTry, q: QueueInfo)
    requires t.queue != q && q.name in st.alloc && t.binding.queue != q.name
    ensures q.name in TryBinding(ss, st, t).alloc && TryBinding(ss, st, t).alloc[q.name] == st.alloc[q.name]
    ensures Project(TryBinding(ss, st, t).dispatched, q) == Project(st.dispatched, q)
  {
    ProjectSnoc(st.dispatched, t, q);
  }

  lemma IsolatedStep(ss: Snapshot, ts: seq<QueueTry>, t: QueueTry, q: QueueInfo)
    requires ValidSnapshot(ss) && Sound(ss, ts + [t]) && q.name in ss.queues && ss.queues[q.name] == q
    requires Isolated(ss, ts, q, Run(ss, ts))
    ensures Isolated(ss, ts + [t], q, TryBinding(ss, Run(ss, ts), t))
  {
    SoundInit(ss, ts + [t]);
    TurnIsReady(ss, ts, t);
    ProjectSnoc(ts, t, q);
    var limit, start := Limit(ss, q), Load(ss, ss.infos, q.name);
    if t.queue == q {
      ScanSnoc(limit, start, Project(ts, q), t.binding);
      OwnTry(ss, Run(ss, ts), t, GreedyScan(limit, start, Project(ts, q)));
    } else {
      OtherTry(ss, Run(ss, ts), t, q);
    }
  }

  lemma {:induction false} IsolatedHolds(ss: Snapshot, ts: seq<QueueTry>, q: QueueInfo)
    requires ValidSnapshot(ss) && Sound(ss, ts) && q.name in AttrQueues(ss) && ss.queues[q.name] == q
    ensures Isolated(ss, ts, q, Run(ss, ts))
  {
    if ts != [] {
      SoundInit(ss, ts);
      IsolatedHolds(ss, ts[..|ts| - 1], q);
      IsolatedStep(ss, ts[..|ts| - 1], ts[|ts| - 1], q);
    }
  }

  /** Queue isolation: what a session dispatches of a queue, and what it ends up with allocated
      there, is the greedy scan of that queue's sorted bindings alone. */
  lemma QueueIsolation(ss: Snapshot, q: QueueInfo)
    requires ValidSnapshot(ss) && q.name in AttrQueues(ss) && ss.queues[q.name] == q
    ensures var scan := GreedyScan(Limit(ss, q), Load(ss, ss.infos, q.name), BindingOrder(ss, q.name));
            && q.name in Outcome(ss).alloc
            && Outcome(ss).alloc[q.name] == scan.alloc
            && Project(Outcome(ss).dispatched, q) == scan.taken
  {
    var ts := Tries(ss);
    assert Sound(ss, ts) by { TriesAreSound(ss); }
    assert Project(ts, q) == BindingOrder(ss, q.name) by { TriesOfQueue(ss, q); }
    IsolatedHolds(ss, ts, q);
    assert Isolated(ss, ts, q, Outcome(ss));
  }

  /** Two snapshots that agree about one queue. */
  ghost predicate AgreeOn(a: Snapshot, b: Snapshot, q: QueueInfo) {
    && a.total == b.total
    && q.name in a.queues && a.queues[q.name] == q && q.name in b.queues && b.queues[q.name] == q
    && (forall u ::
          u in a.infos && Resolve(a, a.infos[u]) == q.name <==> u in b.infos && Resolve(b, b.infos[u]) == q.name)
    && (forall u | u in a.infos && u in b.infos && Resolve(a, a.infos[u]) == q.name :: a.infos[u] == b.infos[u])
  }

  lemma SameBindings(a: Snapshot, b: Snapshot, q: QueueInfo)
    requires AgreeOn(a, b, q)
    ensures Pending(a, q.name) == Pending(b, q.name)
  {
  }

  lemma SameLoad(a: Snapshot, b: Snapshot, q: QueueInfo)
    requires AgreeOn(a, b, q)
    ensures Load(a, a.infos, q.name) == Load(b, b.infos, q.name)
  {
    assert Occupying(a, a.infos, q.name) == Occupying(b, b.infos, q.name);
    SumAgrees(Occupying(a, a.infos, q.name), Requests(a.infos), Requests(b.infos));
  }

  lemma SameAttr(a: Snapshot, b: Snapshot, q: QueueInfo)
    requires AgreeOn(a, b, q) && q.name in AttrQueues(a)
    ensures q.name in AttrQueues(b)
  {
    var u :| u in a.infos && Resolve(a, a.infos[u]) == q.name;
    assert u in b.infos && Resolve(b, b.infos[u]) == q.name;
  }

  /** Whatever the other queues hold, a queue's outcome is the same. */
  lemma OtherQueuesDoNotMatter(a: Snapshot, b: Snapshot, q: QueueInfo)
    requires ValidSnapshot(a) && ValidSnapshot(b) && AgreeOn(a, b, q) && q.name in AttrQueues(a)
    ensures Project(Outcome(a).dispatched, q) == Project(Outcome(b).dispatched, q)
  {
    SameBindings(a, b, q);
    SameLoad(a, b, q);
    SameAttr(a, b, q);
    QueueIsolation(a, q);
    QueueIsolation(b, q);
  }

  lemma DispatchedInQueue(ss: Snapshot, u: UID, q: QueueInfo)
    requires ValidSnapshot(ss) && u in ss.infos && Resolve(ss, ss.infos[u]) == q.name
    requires q.name in ss.queues && ss.queues[q.name] == q
    ensures IsDispatched(Outcome(ss).dispatched, u) <==> ss.infos[u] in Project(Outcome(ss).dispatched, q)
  {
    var ts := Tries(ss);
    assert Sound(ss, ts) by { TriesAreSound(ss); }
    DispatchedInProjection(ss, ts, u, q);
  }

  lemma DispatchedInProjection(ss: Snapshot, ts: seq<QueueTry>, u: UID, q: QueueInfo)
    requires ValidSnapshot(ss) && Sound(ss, ts) && u in ss.infos && Resolve(ss, ss.infos[u]) == q.name
    requires q.name in ss.queues && ss.queues[q.name] == q
    ensures IsDispatched(Run(ss, ts).dispatched, u) <==> ss.infos[u] in Project(Run(ss, ts).dispatched, q)
  {
    ShapeHolds(ss, ts);
    ProjectMembers(Run(ss, ts).dispatched, q, ss.infos[u]);
    forall t | t in Run(ss, ts).dispatched && t.binding.rb.uid == u
      ensures t == Try(q, ss.infos[u])
    {
      var i :| 0 <= i < |ts| && ts[i] == t;
      assert TryOk(ss, ts[i]);
    }
  }

  /** A queue's part of a session: its sorted bindings, and which of them are dispatched. */
  ghost predicate QueuePart(ss: Snapshot, q: QueueInfo, bs: seq<ResourceBindingInfo>, scan: Scan, done: set<UID>) {
    && Distinct(bs)
    && scan == GreedyScan(Limit(ss, q), Load(ss, ss.infos, q.name), bs)
    && forall i | 0 <= i < |bs| :: bs[i].rb.uid in done <==> bs[i] in scan.taken
  }

  ghost function DispatchedUids(ss: Snapshot): set<UID>
    requires ValidSnapshot(ss)
  {
    set u | u in ss.infos && IsDispatched(Outcome(ss).dispatched, u)
  }

  lemma QueuePartHolds(ss: Snapshot, q: QueueInfo) returns (scan: Scan)
    requires ValidSnapshot(ss) && q.name in AttrQueues(ss) && ss.queues[q.name] == q
    ensures QueuePart(ss, q, BindingOrder(ss, q.name), scan, DispatchedUids(ss))
    ensures q.name in Outcome(ss).alloc && Outcome(ss).alloc[q.name] == scan.alloc
  {
    var bs := BindingOrder(ss, q.name);
    scan := GreedyScan(Limit(ss, q), Load(ss, ss.infos, q.name), bs);
    QueueIsolation(ss, q);
    BindingLessStrictTotal(Pending(ss, q.name));
    AscendingDistinct(BindingLess, Pending(ss, q.name));
    forall i | 0 <= i < |bs| ensures bs[i].rb.uid in DispatchedUids(ss) <==> bs[i] in scan.taken {
      BindingOrderMembers(ss, q.name, bs[i]);
      DispatchedInQueue(ss, bs[i].rb.uid, q);
    }
  }

  lemma PartIsMaximal(ss: Snapshot, q: QueueInfo, bs: seq<ResourceBindingInfo>, scan: Scan, done: set<UID>, i: nat)
    requires QueuePart(ss, q, bs, scan, done) && i < |bs| && bs[i].queue != "" && bs[i].rb.uid !in done
    ensures !Fits(scan.alloc, Limit(ss, q), Request(bs[i]))
  {
    ScanIsMaximal(Limit(ss, q), Load(ss, ss.infos, q.name), bs, i);
  }

  lemma PartHasNoInversion(ss: Snapshot, q: QueueInfo, bs: seq<ResourceBindingInfo>, scan: Scan, done: set<UID>,
                           i: nat, j: nat)
    requires QueuePart(ss, q, bs, scan, done) && i < j < |bs| && bs[i].queue != "" && bs[j].rb.uid in done
    requires forall d :: Get(Request(bs[i]), d) <= Get(Request(bs[j]), d)
    ensures bs[i].rb.uid in done
  {
    ScanHasNoInversion(Limit(ss, q), Load(ss, ss.infos, q.name), bs, i, j);
  }

  lemma PositionOf(ss: Snapshot, q: string, u: UID) returns (i: nat)
    requires ValidSnapshot(ss) && u in ss.infos && ss.infos[u].status == Suspended && Resolve(ss, ss.infos[u]) == q
    ensures i < |BindingOrder(ss, q)| && BindingOrder(ss, q)[i] == ss.infos[u]
  {
    assert ss.infos[u] in Pending(ss, q);
    BindingOrderMembers(ss, q, ss.infos[u]);
    i :| 0 <= i < |BindingOrder(ss, q)| && BindingOrder(ss, q)[i] == ss.infos[u];
  }

  /** Greedy maximality: a suspended binding that names an existing queue and was not
      dispatched does not fit what its queue has allocated when the session ends. */
  lemma LeftOutDoesNotFit(ss: Snapshot, u: UID)
    requires ValidSnapshot(ss) && u in ss.infos && ss.infos[u].status == Suspended
    requires ss.infos[u].queue in ss.queues && u !in DispatchedUids(ss)
    ensures ss.infos[u].queue in Outcome(ss).alloc
    ensures !Fits(Outcome(ss).alloc[ss.infos[u].queue], Limit(ss, ss.queues[ss.infos[u].queue]), Request(ss.infos[u]))
  {
    var q := ss.queues[ss.infos[u].queue];
    assert Resolve(ss, ss.infos[u]) == q.name && q.name in AttrQueues(ss);
    var scan := QueuePartHolds(ss, q);
    var i := PositionOf(ss, q.name, u);
    PartIsMaximal(ss, q, BindingOrder(ss, q.name), scan, DispatchedUids(ss), i);
  }

  lemma Asymmetric<T(!new)>(less: (T, T) -> bool, s: set<T>, a: T, b: T)
    requires StrictTotalOn(less, s) && a in s && b in s && less(a, b)
    ensures a != b && !less(b, a)
  {
    assert OrderedAt(less, s, a, b, a);
  }

  lemma SortedPositions<T(!new)>(less: (T, T) -> bool, s: set<T>, i: nat, j: nat)
    requires StrictTotalOn(less, s) && i < |s| && j < |s|
    requires less(Sort(less, s)[i], Sort(less, s)[j])
    ensures i < j
  {
    var xs := Sort(less, s);
    assert Ascending(less, xs) by { SortAscends(less, s); }
    SortMembers(less, s);
    assert InOrder(less, xs, j, i);
    assert xs[i] != xs[j] && !less(xs[j], xs[i]) by {
      assert xs[i] in xs && xs[j] in xs;
      Asymmetric(less, s, xs[i], xs[j]);
    }
  }

  /** No priority inversion: within a queue, if a binding ordered later is dispatched and asks
      at least as much in every dimension, the earlier one is dispatched too. */
  lemma NoPriorityInversion(ss: Snapshot, u: UID, v: UID)
    requires ValidSnapshot(ss) && u in ss.infos && v in DispatchedUids(ss)
    requires ss.infos[u].status == Suspended && ss.infos[u].queue == ss.infos[v].queue
    requires BindingLess(ss.infos[u], ss.infos[v])
    requires forall d :: Get(Request(ss.infos[u]), d) <= Get(Request(ss.infos[v]), d)
    ensures u in DispatchedUids(ss)
  {
    DispatchedWasPending(ss, v);
    var q := ss.queues[ss.infos[u].queue];
    assert Resolve(ss, ss.infos[u]) == q.name && q.name in AttrQueues(ss);
    var scan := QueuePartHolds(ss, q);
    var i := PositionOf(ss, q.name, u);
    var j := PositionOf(ss, q.name, v);
    BindingLessStrictTotal(Pending(ss, q.name));
    SortedPositions(BindingLess, Pending(ss, q.name), i, j);
    PartHasNoInversion(ss, q, BindingOrder(ss, q.name), scan, DispatchedUids(ss), i, j);
  }

  lemma DispatchedWasPending(ss: Snapshot, u: UID)
    requires ValidSnapshot(ss) && IsDispatched(Outcome(ss).dispatched, u)
    ensures u in ss.infos && ss.infos[u].status == Suspended && ss.infos[u].queue in ss.queues
  {
    var ts := Tries(ss);
    assert Sound(ss, ts) by { TriesAreSound(ss); }
    DispatchedIsExplicit(ss, ts, u);
  }

  lemma {:induction false} DispatchedIsExplicit(ss: Snapshot, ts: seq<QueueTry>, u: UID)
    requires ValidSnapshot(ss) && Sound(ss, ts) && IsDispatched(Run(ss, ts).dispatched, u)
    ensures u in ss.infos && ss.infos[u].status == Suspended && ss.infos[u].queue in ss.queues
  {
    if ts != [] {
      var init, t := ts[..|ts| - 1], ts[|ts| - 1];
      SoundInit(ss, ts);
      if IsDispatched(Run(ss, init).dispatched, u) {
        DispatchedIsExplicit(ss, init, u);
      } else {
        TurnIsReady(ss, init, t);
      }
    }
  }
}
