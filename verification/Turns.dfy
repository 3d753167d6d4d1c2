/** When a session tries a binding, and what becomes of it then, in terms of priorities, ages,
    amounts and limits alone. */
module Turns {
  import opened Resources
  import opened Api
  import opened Sorting
  import opened Orders
  import opened Rounds
  import opened CacheModel
  import opened Sessions
  import opened Greedy

  // ----- the order of the tries -----

  lemma SortedPrecedes<T(!new)>(less: (T, T) -> bool, s: set<T>, x: T, y: T)
    requires StrictTotalOn(less, s) && x in s && y in s
    ensures Precedes(Sort(less, s), x, y) <==> less(x, y)
  {
    var xs := Sort(less, s);
    assert Ascending(less, xs) by { SortAscends(less, s); }
    assert x in xs && y in xs by { SortMembers(less, s); }
    var a :| 0 <= a < |xs| && xs[a] == x;
    var b :| 0 <= b < |xs| && xs[b] == y;
    if Precedes(xs, x, y) {
      var c, d :| 0 <= c < d < |xs| && xs[c] == x && xs[d] == y;
      assert InOrder(less, xs, c, d);
    }
    if less(x, y) {
      assert OrderedAt(less, s, x, y, x);
      assert InOrder(less, xs, b, a);
      assert a < b;
    }
  }

  /** Two tries of a session, and which comes first: the one whose queue had fewer turns before it;
      of the same round, the one whose queue has the higher priority, or is older, or has the smaller
      UID. */
  lemma TriesOrder(ss: Snapshot, i: nat, j: nat)
    requires ValidSnapshot(ss) && i < |Tries(ss)| && j < |Tries(ss)|
    ensures var ts := Tries(ss);
            i < j <==>
              || RoundOf(ts, i) < RoundOf(ts, j)
              || (RoundOf(ts, i) == RoundOf(ts, j) && QueueAhead(ts[i].queue, ts[j].queue))
  {
    var ts := Tries(ss);
    QueueLessStrictTotal(ActiveQueues(ss));
    AscendingDistinct(QueueLess, ActiveQueues(ss));
    RoundRobinOrder(QueueOrder(ss), BindingLists(ss), i, j);
    TryIsActive(ss, i);
    TryIsActive(ss, j);
    SortedPrecedes(QueueLess, ActiveQueues(ss), ts[i].queue, ts[j].queue);
    QueueLessMeaning(ts[i].queue, ts[j].queue);
  }

  predicate QueueAhead(l: QueueInfo, r: QueueInfo) {
    || l.priority > r.priority
    || (l.priority == r.priority && l.created < r.created)
    || (l.priority == r.priority && l.created == r.created && StringLess(l.uid, r.uid))
  }

  lemma TryIsActive(ss: Snapshot, i: nat)
    requires ValidSnapshot(ss) && i < |Tries(ss)|
    ensures Tries(ss)[i].queue in ActiveQueues(ss) && TryOk(ss, Tries(ss)[i])
  {
    TriesAreOk(ss);
    assert Tries(ss)[i] in Tries(ss);
    assert Tries(ss)[i].binding in Pending(ss, Tries(ss)[i].queue.name);
  }

  predicate BindingAhead(l: ResourceBindingInfo, r: ResourceBindingInfo) {
    || l.priority > r.priority
    || (l.priority == r.priority && l.rb.created < r.rb.created)
    || (l.priority == r.priority && l.rb.created == r.rb.created && StringLess(l.rb.uid, r.rb.uid))
  }

  lemma EarlierIsAhead(ss: Snapshot, i: nat, j: nat)
    requires ValidSnapshot(ss) && i < j < |Tries(ss)| && Tries(ss)[i].queue == Tries(ss)[j].queue
    ensures BindingAhead(Tries(ss)[i].binding, Tries(ss)[j].binding)
  {
    var ts, q := Tries(ss), Tries(ss)[i].queue;
    var bs := BindingOrder(ss, q.name);
    LaterRound(ts, i, j);
    assert InQueueOrder(ts, bs, i) && InQueueOrder(ts, bs, j) by {
      TryIsActive(ss, i);
      TriesOfQueue(ss, q);
      ProjectAt(ts, i);
      ProjectAt(ts, j);
    }
    assert Ascending(BindingLess, bs) by {
      BindingLessStrictTotal(Pending(ss, q.name));
      SortAscends(BindingLess, Pending(ss, q.name));
    }
    assert InOrder(BindingLess, bs, RoundOf(ts, i), RoundOf(ts, j));
    BindingLessMeaning(ts[i].binding, ts[j].binding);
  }

  ghost predicate InQueueOrder(ts: seq<QueueTry>, bs: seq<ResourceBindingInfo>, i: nat) {
    i < |ts| && RoundOf(ts, i) < |bs| && bs[RoundOf(ts, i)] == ts[i].binding
  }

  /** Of two tries at one queue, the first is of the binding with the higher priority, or the older
      one, or the one with the smaller UID. */
  lemma TriesOfQueueOrder(ss: Snapshot, i: nat, j: nat)
    requires ValidSnapshot(ss) && i < |Tries(ss)| && j < |Tries(ss)| && Tries(ss)[i].queue == Tries(ss)[j].queue
    ensures i < j <==> BindingAhead(Tries(ss)[i].binding, Tries(ss)[j].binding)
  {
    var a, b := Tries(ss)[i].binding, Tries(ss)[j].binding;
    BindingLessMeaning(a, b);
    BindingLessMeaning(b, a);
    TriesAreUnique(ss, i, j);
    BindingLessStrictTotal({a, b});
    assert OrderedAt(BindingLess, {a, b}, a, b, a);
    if i < j {
      EarlierIsAhead(ss, i, j);
    } else if j < i {
      EarlierIsAhead(ss, j, i);
    }
  }

  lemma TriesAreUnique(ss: Snapshot, i: nat, j: nat)
    requires ValidSnapshot(ss) && i < |Tries(ss)| && j < |Tries(ss)|
    ensures Tries(ss)[i].binding.rb.uid == Tries(ss)[j].binding.rb.uid ==> Tries(ss)[i].binding == Tries(ss)[j].binding
  {
    TryIsActive(ss, i);
    TryIsActive(ss, j);
  }

  // ----- priority classes decide -----

  lemma TriedAsPrioritized(c: CacheState, k: Key, i: nat)
    requires UniqueUids(c.infos) && k in c.infos && ValidSnapshot(TakeSnapshot(c))
    requires TriedAt(Tries(TakeSnapshot(c)), UidAt(c.infos, k), i)
    ensures var t := Tries(TakeSnapshot(c))[i];
            && Prioritized(c.pcs, c.infos[k], t.binding) && Joins(TakeSnapshot(c), c.infos[k], t.queue.name)
            && TryOk(TakeSnapshot(c), t)
  {
    var u := UidAt(c.infos, k);
    TriedExactlyOnce(TakeSnapshot(c), u);
    SnapshotMeaning(c, u);
    var j :| j in c.infos && c.infos[j].rb.uid == u && Prioritized(c.pcs, c.infos[j], TakeSnapshot(c).infos[u]);
    assert UidAt(c.infos, j) == u && j == k;
    TryIsActive(TakeSnapshot(c), i);
  }

  /** Of two cached bindings of one queue, a session on a snapshot of the cache first tries the one of
      higher priority: the value of its class, or the default's for a binding that names none. */
  lemma HigherClassFirst(c: CacheState, j: Key, k: Key, pj: int, pk: int, m: nat, n: nat)
    requires UniqueUids(c.infos) && TwinIndex(c) && ValidQueues(c) && j in c.infos && k in c.infos
    requires PriorityIs(c.pcs, c.infos[j], pj) && PriorityIs(c.pcs, c.infos[k], pk) && pj > pk
    requires c.infos[j].queue == c.infos[k].queue
    ensures ValidSnapshot(TakeSnapshot(c))
    ensures var ts := Tries(TakeSnapshot(c));
            TriedAt(ts, UidAt(c.infos, j), m) && TriedAt(ts, UidAt(c.infos, k), n) ==> m < n
  {
    SnapshotIsValid(c);
    var ts := Tries(TakeSnapshot(c));
    if TriedAt(ts, UidAt(c.infos, j), m) && TriedAt(ts, UidAt(c.infos, k), n) {
      TriedAsPrioritized(c, j, m);
      TriedAsPrioritized(c, k, n);
      TriesOfQueueOrder(TakeSnapshot(c), m, n);
    }
  }

  // ----- what becomes of a try -----

  lemma {:induction false} DecidedByThen(ss: Snapshot, ts: seq<QueueTry>, u: UID, i: nat)
    requires Sound(ss, ts) && TriedAt(ts, u, i)
    ensures IsDispatched(Run(ss, ts).dispatched, u) <==> IsDispatched(Run(ss, ts[..i + 1]).dispatched, u)
    decreases |ts|
  {
    if i + 1 == |ts| {
      assert ts[..i + 1] == ts;
    } else {
      var init, t := ts[..|ts| - 1], ts[|ts| - 1];
      SoundInit(ss, ts);
      assert init[i] == ts[i] && init[i] in init;
      DecidedByThen(ss, init, u, i);
      assert init[..i + 1] == ts[..i + 1];
      DispatchedSnoc(Run(ss, init).dispatched, t, u);
    }
  }

  lemma NotDispatchedBefore(ss: Snapshot, ts: seq<QueueTry>, t: QueueTry)
    requires Sound(ss, ts + [t])
    ensures !IsDispatched(Run(ss, ts).dispatched, t.binding.rb.uid)
  {
    SoundInit(ss, ts + [t]);
    assert (ts + [t])[..|ts|] == ts;
    ShapeHolds(ss, ts);
    forall s | s in Run(ss, ts).dispatched ensures s.binding.rb.uid != t.binding.rb.uid {
      var i :| 0 <= i < |ts| && ts[i] == s;
      assert (ts + [t])[i] == s;
    }
  }

  lemma DispatchedNow(ss: Snapshot, ts: seq<QueueTry>, t: QueueTry)
    requires ValidSnapshot(ss) && Sound(ss, ts + [t])
    ensures t.queue.uid in Run(ss, ts).alloc
    ensures IsDispatched(TryBinding(ss, Run(ss, ts), t).dispatched, t.binding.rb.uid)
       <==> t.binding.queue != "" && Fits(Run(ss, ts).alloc[t.queue.uid], Limit(ss, t.queue), Request(t.binding))
  {
    TurnIsReady(ss, ts, t);
    NotDispatchedBefore(ss, ts, t);
    DispatchedSnoc(Run(ss, ts).dispatched, t, t.binding.rb.uid);
  }

  /** In this dimension the request is kept within the queue's limit, on top of what is allocated. */
  ghost predicate Keeps(ss: Snapshot, infos: map<UID, ResourceBindingInfo>, q: string, b: ResourceBindingInfo, d: Dim) {
    var asked := Get(b.rb.replicaRequest, d) * b.rb.replicas;
    asked > 0 ==> Get(Load(ss, infos, q), d) + asked <= LimitAt(ss, q, d)
  }

  lemma FitsIffKeeps(ss: Snapshot, infos: map<UID, ResourceBindingInfo>, q: string, b: ResourceBindingInfo)
    requires q in ss.queues
    ensures Fits(Load(ss, infos, q), Limit(ss, ss.queues[q]), Request(b)) <==> forall d :: Keeps(ss, infos, q, b, d)
  {
    FitsMeaning(Load(ss, infos, q), Limit(ss, ss.queues[q]), Request(b));
    forall d ensures Get(Request(b), d) == Get(b.rb.replicaRequest, d) * b.rb.replicas {
      RequestMeaning(b, d);
    }
    if forall d :: Keeps(ss, infos, q, b, d) {
      forall d | Get(Request(b), d) > 0
        ensures Get(Load(ss, infos, q), d) + Get(Request(b), d) <= Get(Limit(ss, ss.queues[q]), d)
      {
        assert Keeps(ss, infos, q, b, d);
      }
    }
  }

  /** What becomes of a binding at its turn: it is dispatched iff it names its queue itself and, in
      every dimension it asks for, its whole request on top of what the queue has then is within the
      queue's limit; and that is settled then. */
  lemma DispatchedAtItsTurn(ss: Snapshot, u: UID, i: nat)
    requires ValidSnapshot(ss) && TriedAt(Tries(ss), u, i)
    ensures var b, infos := Tries(ss)[i].binding, Run(ss, Tries(ss)[..i]).infos;
            IsDispatched(Outcome(ss).dispatched, u) <==> b.queue != "" && forall d :: Keeps(ss, infos, b.queue, b, d)
  {
    var ts, t := Tries(ss), Tries(ss)[i];
    assert Sound(ss, ts) by { TriesAreSound(ss); }
    SoundThen(ss, ts, i);
    assert IsDispatched(Run(ss, ts).dispatched, u) <==> IsDispatched(Run(ss, ts[..i + 1]).dispatched, u) by {
      DecidedByThen(ss, ts, u, i);
    }
    DispatchedThen(ss, ts[..i], t);
    assert ts[..i + 1] == ts[..i] + [t];
  }

  lemma DispatchedThen(ss: Snapshot, ts: seq<QueueTry>, t: QueueTry)
    requires ValidSnapshot(ss) && Sound(ss, ts) && Sound(ss, ts + [t])
    ensures var b, infos := t.binding, Run(ss, ts).infos;
            IsDispatched(Run(ss, ts + [t]).dispatched, b.rb.uid)
            <==> b.queue != "" && forall d :: Keeps(ss, infos, b.queue, b, d)
  {
    assert (ts + [t])[..|ts|] == ts;
    DispatchedNow(ss, ts, t);
    if t.binding.queue != "" {
      NamedQueue(ss, ts, t);
      FitsIffKeeps(ss, Run(ss, ts).infos, t.binding.queue, t.binding);
    }
  }

  lemma SoundThen(ss: Snapshot, ts: seq<QueueTry>, i: nat)
    requires Sound(ss, ts) && i < |ts|
    ensures Sound(ss, ts[..i] + [ts[i]]) && Sound(ss, ts[..i])
  {
    assert ts[..i] + [ts[i]] == ts[..i + 1];
    assert forall j | 0 <= j < i + 1 :: ts[..i + 1][j] == ts[j] && TryOk(ss, ts[j]);
    assert forall j | 0 <= j < i :: ts[..i][j] == ts[j] && TryOk(ss, ts[j]);
  }

  lemma NamedQueue(ss: Snapshot, ts: seq<QueueTry>, t: QueueTry)
    requires ValidSnapshot(ss) && Sound(ss, ts) && Sound(ss, ts + [t]) && t.binding.queue != ""
    ensures var q := t.binding.queue;
            && t.queue.uid == q && q in ss.queues && ss.queues[q] == t.queue
            && q in Run(ss, ts).alloc && Run(ss, ts).alloc[q] == Load(ss, Run(ss, ts).infos, q)
  {
    SoundInit(ss, ts + [t]);
    TurnIsReady(ss, ts, t);
    assert Resolve(ss, ss.infos[t.binding.rb.uid]) in AttrQueues(ss);
    AccountingIsExact(ss, ts, t.binding.queue);
  }

  // ----- what a queue has -----

  /** The bindings that count for a queue: those that joined it and do not wait any more. */
  predicate Counts(ss: Snapshot, infos: map<UID, ResourceBindingInfo>, q: string, u: UID) {
    u in infos && infos[u].status != Suspended && Joins(ss, infos[u], q)
  }

  /** What a queue has is the sum, over the bindings that count for it, of the request of one replica
      times the replicas. */
  lemma LoadMeaning(ss: Snapshot, infos: map<UID, ResourceBindingInfo>, q: string, amounts: map<UID, Resource>, d: Dim)
    requires forall u | u in infos :: u in amounts
               && Get(amounts[u], d) == Get(infos[u].rb.replicaRequest, d) * infos[u].rb.replicas
    ensures var us := set u | u in infos && Counts(ss, infos, q, u);
            us <= amounts.Keys && Get(Load(ss, infos, q), d) == Get(Sum(us, amounts), d)
  {
    var us := set u | u in infos && Counts(ss, infos, q, u);
    assert us == Occupying(ss, infos, q);
    forall u | u in us ensures Get(Requests(infos)[u], d) == Get(amounts[u], d) {
      RequestMeaning(infos[u], d);
    }
    SumSame(us, Requests(infos), amounts, d);
  }
}
