/** Why the dispatcher's loop over two swapped priority queues visits bindings in round-robin
    order: the invariant of the loop and its steps. */
module RoundRobinLoop {
  import opened Api
  import opened Sorting
  import opened Orders
  import opened Rounds
  import opened Sessions

  /** The items of a priority queue, in the order they will be popped. */
  ghost predicate Holds<T(!new)>(less: (T, T) -> bool, items: set<T>, xs: seq<T>) {
    StrictTotalOn(less, items) && Sort(less, items) == xs
  }

  ghost function Drop<T>(xs: seq<T>, n: nat): seq<T> {
    if n <= |xs| then xs[n..] else []
  }

  /** What a queue has left after n of its bindings were popped. */
  ghost predicate HoldsRest(lists: Lists<QueueInfo, ResourceBindingInfo>, left: map<string, set<ResourceBindingInfo>>,
                            q: QueueInfo, n: nat)
  {
    q.name in left && Holds(BindingLess, left[q.name], Drop(List(lists, q), n))
  }

  /** How often a queue of the snapshot was popped, in round k after the given queues. */
  ghost function Popped(q: QueueInfo, passed: seq<QueueInfo>, k: nat): nat {
    if q in passed then k + 1 else k
  }

  ghost predicate AllHoldRest(qs: seq<QueueInfo>, lists: Lists<QueueInfo, ResourceBindingInfo>,
                              left: map<string, set<ResourceBindingInfo>>, passed: seq<QueueInfo>, k: nat)
  {
    forall q | q in qs :: HoldsRest(lists, left, q, Popped(q, passed, k))
  }

  /** In round k, after i of its queues cur: what was tried, which queues are still to come in
      this round and in the next, and what each queue has left. */
  ghost predicate TurnInv(qs: seq<QueueInfo>, lists: Lists<QueueInfo, ResourceBindingInfo>, cur: seq<QueueInfo>,
                          k: nat, i: nat, queues: set<QueueInfo>, rounded: set<QueueInfo>,
                          left: map<string, set<ResourceBindingInfo>>, before: seq<QueueTry>, tried: seq<QueueTry>)
  {
    && i <= |cur|
    && tried == before + Round(cur[..i], lists, k)
    && Holds(QueueLess, queues, cur[i..])
    && Holds(QueueLess, rounded, Alive(cur[..i], lists, k + 1))
    && AllHoldRest(qs, lists, left, cur[..i], k)
  }

  ghost predicate LoopInv(qs: seq<QueueInfo>, lists: Lists<QueueInfo, ResourceBindingInfo>, k: nat, i: nat,
                          queues: set<QueueInfo>, rounded: set<QueueInfo>,
                          left: map<string, set<ResourceBindingInfo>>, tried: seq<QueueTry>)
  {
    TurnInv(qs, lists, Alive(qs, lists, k), k, i, queues, rounded, left, FirstRounds(qs, lists, k), tried)
  }

  /** The invariant of the loop: it is somewhere in some round. */
  ghost predicate Looping(qs: seq<QueueInfo>, lists: Lists<QueueInfo, ResourceBindingInfo>, queues: set<QueueInfo>,
                          rounded: set<QueueInfo>, left: map<string, set<ResourceBindingInfo>>, tried: seq<QueueTry>)
  {
    exists k: nat, i: nat :: LoopInv(qs, lists, k, i, queues, rounded, left, tried)
  }

  /** The whole visit. */
  ghost predicate IsVisit(qs: seq<QueueInfo>, lists: Lists<QueueInfo, ResourceBindingInfo>, ts: seq<QueueTry>) {
    exists m: nat :: m == Longest(qs, lists) && ts == FirstRounds(qs, lists, m)
  }

  /** The queues of a session, in order and with distinct names. */
  ghost predicate Setup(qs: seq<QueueInfo>) {
    && StrictTotalOn(QueueLess, Elements(qs)) && Ascending(QueueLess, qs) && Distinct(qs)
    && DistinctNames(qs)
  }

  ghost predicate NameTells(qs: seq<QueueInfo>, q: QueueInfo, r: QueueInfo) {
    q in qs && r in qs && q.name == r.name ==> q == r
  }

  ghost predicate DistinctNames(qs: seq<QueueInfo>) {
    forall q, r :: NameTells(qs, q, r)
  }

  /** The queues of one round: an ordered part of all queues, each with a k-th binding. */
  ghost predicate RoundQueues(qs: seq<QueueInfo>, lists: Lists<QueueInfo, ResourceBindingInfo>, cur: seq<QueueInfo>,
                              k: nat)
  {
    && Setup(cur)
    && forall q | q in cur :: q in qs && k < |List(lists, q)|
  }

  lemma {:induction false} AliveAscends(qs: seq<QueueInfo>, lists: Lists<QueueInfo, ResourceBindingInfo>, k: nat)
    requires Ascending(QueueLess, qs)
    ensures Ascending(QueueLess, Alive(qs, lists, k))
  {
    if qs != [] {
      var init, q := qs[..|qs| - 1], qs[|qs| - 1];
      forall i: nat, j: nat ensures InOrder(QueueLess, init, i, j) {
        assert InOrder(QueueLess, qs, i, j);
      }
      AliveAscends(init, lists, k);
      AliveMembers(init, lists, k);
      var a := Alive(init, lists, k);
      if k < |List(lists, q)| {
        forall y | y in a ensures QueueLess(y, q) {
          var m :| 0 <= m < |init| && init[m] == y;
          assert InOrder(QueueLess, qs, m, |qs| - 1);
        }
        AscendingSnoc(QueueLess, a, q);
      }
    }
  }

  lemma AliveIsRound(qs: seq<QueueInfo>, lists: Lists<QueueInfo, ResourceBindingInfo>, k: nat)
    requires Setup(qs)
    ensures RoundQueues(qs, lists, Alive(qs, lists, k), k)
  {
    var cur := Alive(qs, lists, k);
    AliveMembers(qs, lists, k);
    AliveAscends(qs, lists, k);
    assert Elements(cur) <= Elements(qs);
    SubsetTotal(QueueLess, Elements(qs), Elements(cur));
    forall q, r ensures NameTells(cur, q, r) {
      assert NameTells(qs, q, r);
    }
  }

  lemma HoldsEmpty<T(!new)>(less: (T, T) -> bool)
    ensures Holds(less, {}, [])
  {
  }

  lemma {:induction false} AllAlive(qs: seq<QueueInfo>, lists: Lists<QueueInfo, ResourceBindingInfo>)
    requires forall q | q in qs :: List(lists, q) != []
    ensures Alive(qs, lists, 0) == qs
  {
    if qs != [] {
      AllAlive(qs[..|qs| - 1], lists);
      assert qs[|qs| - 1] in qs;
      assert qs == qs[..|qs| - 1] + [qs[|qs| - 1]];
    }
  }

  lemma RoundStarts(qs: seq<QueueInfo>, lists: Lists<QueueInfo, ResourceBindingInfo>, cur: seq<QueueInfo>, k: nat,
                    queues: set<QueueInfo>, left: map<string, set<ResourceBindingInfo>>, before: seq<QueueTry>)
    requires Holds(QueueLess, queues, cur) && AllHoldRest(qs, lists, left, [], k)
    ensures TurnInv(qs, lists, cur, k, 0, queues, {}, left, before, before)
  {
    assert cur[0..] == cur && cur[..0] == [];
    HoldsEmpty(QueueLess);
  }

  lemma LoopStarts(qs: seq<QueueInfo>, lists: Lists<QueueInfo, ResourceBindingInfo>, queues: set<QueueInfo>,
                   left: map<string, set<ResourceBindingInfo>>)
    requires Holds(QueueLess, queues, qs) && forall q | q in qs :: List(lists, q) != [] && HoldsRest(lists, left, q, 0)
    ensures Looping(qs, lists, queues, {}, left, [])
  {
    AllAlive(qs, lists);
    RoundStarts(qs, lists, qs, 0, queues, left, []);
    assert LoopInv(qs, lists, 0, 0, queues, {}, left, []);
  }

  /** An empty current queue means the round is over. */
  lemma RoundOver(qs: seq<QueueInfo>, lists: Lists<QueueInfo, ResourceBindingInfo>, k: nat, i: nat,
                  queues: set<QueueInfo>, rounded: set<QueueInfo>, left: map<string, set<ResourceBindingInfo>>,
                  tried: seq<QueueTry>)
    requires LoopInv(qs, lists, k, i, queues, rounded, left, tried) && queues == {}
    ensures i == |Alive(qs, lists, k)| && tried == FirstRounds(qs, lists, k + 1)
    ensures Holds(QueueLess, rounded, Alive(qs, lists, k + 1))
    ensures AllHoldRest(qs, lists, left, Alive(qs, lists, k), k)
  {
    var cur := Alive(qs, lists, k);
    assert |cur[i..]| == 0;
    assert cur[..i] == cur;
    AliveAgain(qs, lists, k);
  }

  lemma AllPopped(qs: seq<QueueInfo>, lists: Lists<QueueInfo, ResourceBindingInfo>,
                  left: map<string, set<ResourceBindingInfo>>, k: nat)
    requires AllHoldRest(qs, lists, left, Alive(qs, lists, k), k)
    ensures AllHoldRest(qs, lists, left, [], k + 1)
  {
    var cur := Alive(qs, lists, k);
    AliveMembers(qs, lists, k);
    forall q | q in qs ensures HoldsRest(lists, left, q, Popped(q, [], k + 1)) {
      assert HoldsRest(lists, left, q, Popped(q, cur, k));
    }
  }

  lemma RoundSwaps(qs: seq<QueueInfo>, lists: Lists<QueueInfo, ResourceBindingInfo>, k: nat, i: nat,
                   queues: set<QueueInfo>, rounded: set<QueueInfo>, left: map<string, set<ResourceBindingInfo>>,
                   tried: seq<QueueTry>)
    requires LoopInv(qs, lists, k, i, queues, rounded, left, tried) && queues == {}
    ensures LoopInv(qs, lists, k + 1, 0, rounded, queues, left, tried)
  {
    RoundOver(qs, lists, k, i, queues, rounded, left, tried);
    AllPopped(qs, lists, left, k);
    RoundStarts(qs, lists, Alive(qs, lists, k + 1), k + 1, rounded, left, tried);
  }

  /** Swapping the two queues starts the next round. */
  lemma LoopSwaps(qs: seq<QueueInfo>, lists: Lists<QueueInfo, ResourceBindingInfo>, queues: set<QueueInfo>,
                  rounded: set<QueueInfo>, left: map<string, set<ResourceBindingInfo>>, tried: seq<QueueTry>)
    requires Looping(qs, lists, queues, rounded, left, tried) && queues == {}
    ensures Looping(qs, lists, rounded, queues, left, tried)
  {
    var k: nat, i: nat :| LoopInv(qs, lists, k, i, queues, rounded, left, tried);
    RoundSwaps(qs, lists, k, i, queues, rounded, left, tried);
  }

  /** With both queues empty everything has been visited. */
  lemma LoopEnds(qs: seq<QueueInfo>, lists: Lists<QueueInfo, ResourceBindingInfo>, queues: set<QueueInfo>,
                 rounded: set<QueueInfo>, left: map<string, set<ResourceBindingInfo>>, tried: seq<QueueTry>,
                 ts: seq<QueueTry>)
    requires Looping(qs, lists, queues, rounded, left, tried) && queues == {} && rounded == {}
    requires IsVisit(qs, lists, ts)
    ensures tried == ts
  {
    var k: nat, i: nat :| LoopInv(qs, lists, k, i, queues, rounded, left, tried);
    RoundOver(qs, lists, k, i, queues, rounded, left, tried);
    assert |Alive(qs, lists, k + 1)| == 0;
    RoundsStop(qs, lists, k + 1);
  }

  lemma NotPassed(cur: seq<QueueInfo>, i: nat)
    requires i < |cur| && Distinct(cur)
    ensures cur[i] in cur && cur[i] !in cur[..i]
  {
    forall m: nat | m < i ensures cur[m] != cur[i] {
      assert Differ(cur, m, i);
    }
  }

  /** The next queue to pop is the round's next one, and what it pops is its k-th binding: no
      queue is popped without one. */
  lemma TurnPops(qs: seq<QueueInfo>, lists: Lists<QueueInfo, ResourceBindingInfo>, cur: seq<QueueInfo>, k: nat, i: nat,
                 queues: set<QueueInfo>, rounded: set<QueueInfo>, left: map<string, set<ResourceBindingInfo>>,
                 before: seq<QueueTry>, tried: seq<QueueTry>)
    requires RoundQueues(qs, lists, cur, k)
    requires TurnInv(qs, lists, cur, k, i, queues, rounded, left, before, tried) && queues != {}
    ensures i < |cur| && Sort(QueueLess, queues)[0] == cur[i]
    ensures cur[i] in qs && k < |List(lists, cur[i])|
    ensures HoldsRest(lists, left, cur[i], k) && left[cur[i].name] != {}
    ensures Sort(BindingLess, left[cur[i].name])[0] == List(lists, cur[i])[k]
  {
    assert |cur[i..]| == |queues| > 0;
    var q := cur[i];
    NotPassed(cur, i);
    assert HoldsRest(lists, left, q, Popped(q, cur[..i], k));
    var l := List(lists, q);
    assert Drop(l, k) == l[k..] && |l[k..]| > 0;
  }

  lemma RestOfOthers(lists: Lists<QueueInfo, ResourceBindingInfo>, left: map<string, set<ResourceBindingInfo>>,
                     name: string, rest: set<ResourceBindingInfo>, q: QueueInfo, n: nat)
    requires HoldsRest(lists, left, q, n) && q.name != name
    ensures HoldsRest(lists, left[name := rest], q, n)
  {
    assert left[name := rest][q.name] == left[q.name];
  }

  lemma PoppedNext(cur: seq<QueueInfo>, i: nat, q: QueueInfo, k: nat)
    requires i < |cur|
    ensures Popped(q, cur[..i + 1], k) == if q == cur[i] then k + 1 else Popped(q, cur[..i], k)
  {
    assert cur[..i + 1] == cur[..i] + [cur[i]];
  }

  lemma RestAfterPop(qs: seq<QueueInfo>, lists: Lists<QueueInfo, ResourceBindingInfo>, cur: seq<QueueInfo>, k: nat,
                     i: nat, left: map<string, set<ResourceBindingInfo>>, rest: set<ResourceBindingInfo>)
    requires DistinctNames(qs) && i < |cur| && cur[i] in qs
    requires AllHoldRest(qs, lists, left, cur[..i], k)
    requires Holds(BindingLess, rest, Drop(List(lists, cur[i]), k + 1))
    ensures AllHoldRest(qs, lists, left[cur[i].name := rest], cur[..i + 1], k)
  {
    forall q | q in qs ensures HoldsRest(lists, left[cur[i].name := rest], q, Popped(q, cur[..i + 1], k)) {
      PoppedNext(cur, i, q, k);
      if q != cur[i] {
        assert HoldsRest(lists, left, q, Popped(q, cur[..i], k)) && NameTells(qs, q, cur[i]);
        RestOfOthers(lists, left, cur[i].name, rest, q, Popped(q, cur[..i], k));
      }
    }
  }

  lemma AscendingSnoc<T(!new)>(less: (T, T) -> bool, xs: seq<T>, x: T)
    requires Ascending(less, xs) && forall y | y in xs :: less(y, x)
    ensures Ascending(less, xs + [x])
  {
    var r := xs + [x];
    forall i: nat, j: nat ensures InOrder(less, r, i, j) {
      if i < j < |r| {
        assert r[i] == xs[i] && xs[i] in xs && InOrder(less, xs, i, j);
      }
    }
  }

  lemma PartOfOrder<T(!new)>(less: (T, T) -> bool, cur: seq<T>, i: nat, y: T)
    requires Ascending(less, cur) && i < |cur| && y in cur[..i]
    ensures less(y, cur[i]) && y in Elements(cur)
  {
    var m :| 0 <= m < i && cur[..i][m] == y;
    assert cur[m] == y && InOrder(less, cur, m, i);
  }

  lemma HoldsSnoc<T(!new)>(less: (T, T) -> bool, items: set<T>, xs: seq<T>, x: T)
    requires Holds(less, items, xs) && Ascending(less, xs + [x]) && StrictTotalOn(less, items + {x})
    ensures Holds(less, items + {x}, xs + [x])
  {
    SortMembers(less, items);
    assert Elements(xs + [x]) == items + {x};
    SortUnique(less, items + {x}, xs + [x]);
  }

  /** Appending the next queue in order to a sorted part. */
  lemma AppendNext<T(!new)>(less: (T, T) -> bool, cur: seq<T>, i: nat, xs: seq<T>, items: set<T>)
    requires StrictTotalOn(less, Elements(cur)) && Ascending(less, cur) && i < |cur|
    requires Holds(less, items, xs) && Ascending(less, xs) && forall x | x in xs :: x in cur[..i]
    ensures cur[i] !in items && Holds(less, items + {cur[i]}, xs + [cur[i]])
  {
    forall y | y in xs ensures less(y, cur[i]) && y in Elements(cur) {
      PartOfOrder(less, cur, i, y);
    }
    AscendingSnoc(less, xs, cur[i]);
    assert cur[i] in Elements(cur);
    SortMembers(less, items);
    SubsetTotal(less, Elements(cur), items + {cur[i]});
    HoldsSnoc(less, items, xs, cur[i]);
  }

  /** Putting a queue back for the next round keeps that round's order. */
  lemma PutBack(lists: Lists<QueueInfo, ResourceBindingInfo>, cur: seq<QueueInfo>, k: nat, i: nat,
                rounded: set<QueueInfo>)
    requires Setup(cur) && i < |cur| && Holds(QueueLess, rounded, Alive(cur[..i], lists, k))
    ensures cur[i] !in rounded
    ensures Holds(QueueLess, rounded + {cur[i]}, Alive(cur[..i], lists, k) + [cur[i]])
  {
    var a := Alive(cur[..i], lists, k);
    assert Ascending(QueueLess, a) && forall x | x in a :: x in cur[..i] by {
      AliveMembers(cur[..i], lists, k);
      forall m: nat, n: nat ensures InOrder(QueueLess, cur[..i], m, n) {
        assert InOrder(QueueLess, cur, m, n);
      }
      AliveAscends(cur[..i], lists, k);
    }
    AppendNext(QueueLess, cur, i, a, rounded);
  }

  lemma HoldsIf<T(!new)>(less: (T, T) -> bool, items: set<T>, xs: seq<T>, x: T, more: bool, ys: seq<T>)
    requires Holds(less, items, xs) && Holds(less, items + {x}, xs + [x])
    requires ys == if more then xs + [x] else xs
    ensures Holds(less, if more then items + {x} else items, ys)
  {
  }

  lemma RoundedStep(lists: Lists<QueueInfo, ResourceBindingInfo>, cur: seq<QueueInfo>, k: nat, i: nat,
                    rounded: set<QueueInfo>, more: bool)
    requires Setup(cur) && i < |cur| && Holds(QueueLess, rounded, Alive(cur[..i], lists, k + 1))
    requires k < |List(lists, cur[i])| && (more <==> k + 1 < |List(lists, cur[i])|)
    ensures cur[i] !in rounded
    ensures Holds(QueueLess, if more then rounded + {cur[i]} else rounded, Alive(cur[..i + 1], lists, k + 1))
  {
    var a, b := Alive(cur[..i], lists, k + 1), Alive(cur[..i + 1], lists, k + 1);
    assert b == if more then a + [cur[i]] else a by {
      RoundStep(cur, lists, k, i);
    }
    PutBack(lists, cur, k + 1, i, rounded);
    HoldsIf(QueueLess, rounded, a, cur[i], more, b);
  }

  lemma RestHeld(l: seq<ResourceBindingInfo>, k: nat, rest: set<ResourceBindingInfo>)
    requires k < |l| && Holds(BindingLess, rest, Drop(l, k)[1..])
    ensures Holds(BindingLess, rest, Drop(l, k + 1)) && (rest != {} <==> k + 1 < |l|)
  {
    assert Drop(l, k)[1..] == Drop(l, k + 1);
    assert |rest| == |Drop(l, k + 1)|;
  }

  lemma TriedStep(lists: Lists<QueueInfo, ResourceBindingInfo>, cur: seq<QueueInfo>, k: nat, i: nat,
                  before: seq<QueueTry>)
    requires i < |cur| && k < |List(lists, cur[i])|
    ensures before + Round(cur[..i], lists, k) + [Try(cur[i], List(lists, cur[i])[k])]
         == before + Round(cur[..i + 1], lists, k)
  {
    RoundStep(cur, lists, k, i);
  }

  /** One turn of the loop. */
  lemma TurnStep(qs: seq<QueueInfo>, lists: Lists<QueueInfo, ResourceBindingInfo>, cur: seq<QueueInfo>, k: nat, i: nat,
                 queues: set<QueueInfo>, rounded: set<QueueInfo>, left: map<string, set<ResourceBindingInfo>>,
                 before: seq<QueueTry>, tried: seq<QueueTry>, queues': set<QueueInfo>, rest: set<ResourceBindingInfo>)
    requires DistinctNames(qs) && RoundQueues(qs, lists, cur, k) && i < |cur| && cur[i] in qs
    requires TurnInv(qs, lists, cur, k, i, queues, rounded, left, before, tried)
    requires k < |List(lists, cur[i])|
    requires Holds(QueueLess, queues', cur[i..][1..])
    requires Holds(BindingLess, rest, Drop(List(lists, cur[i]), k)[1..])
    ensures cur[i] !in rounded
    ensures TurnInv(qs, lists, cur, k, i + 1, queues', if rest != {} then rounded + {cur[i]} else rounded,
                    left[cur[i].name := rest], before, tried + [Try(cur[i], List(lists, cur[i])[k])])
  {
    RestHeld(List(lists, cur[i]), k, rest);
    RoundedStep(lists, cur, k, i, rounded, rest != {});
    RestAfterPop(qs, lists, cur, k, i, left, rest);
    TriedStep(lists, cur, k, i, before);
    assert cur[i..][1..] == cur[i + 1..];
  }

  /** What Pop did to a priority queue. */
  ghost predicate Pops<T(!new)>(less: (T, T) -> bool, items: set<T>, x: T, rest: set<T>) {
    && StrictTotalOn(less, items) && items != {} && StrictTotalOn(less, rest)
    && x == Sort(less, items)[0] && Sort(less, rest) == Sort(less, items)[1..]
  }

  lemma PopsHolds<T(!new)>(less: (T, T) -> bool, items: set<T>, x: T, rest: set<T>, xs: seq<T>)
    requires Pops(less, items, x, rest) && Holds(less, items, xs)
    ensures xs != [] && x == xs[0] && Holds(less, rest, xs[1..])
  {
  }

  lemma {:induction false} RoundsPrefix(qs: seq<QueueInfo>, lists: Lists<QueueInfo, ResourceBindingInfo>, k: nat,
                                        n: nat)
    requires k <= n
    ensures FirstRounds(qs, lists, k) <= FirstRounds(qs, lists, n)
    decreases n
  {
    if k < n {
      RoundsPrefix(qs, lists, k, n - 1);
    }
  }

  lemma {:induction false} RoundPrefix(cur: seq<QueueInfo>, lists: Lists<QueueInfo, ResourceBindingInfo>, k: nat,
                                       i: nat)
    requires i <= |cur|
    ensures Round(cur[..i], lists, k) <= Round(cur, lists, k)
    decreases |cur|
  {
    if i < |cur| {
      assert cur[..|cur| - 1][..i] == cur[..i];
      RoundPrefix(cur[..|cur| - 1], lists, k, i);
    } else {
      assert cur[..i] == cur;
    }
  }

  lemma PrefixOfVisit(qs: seq<QueueInfo>, lists: Lists<QueueInfo, ResourceBindingInfo>, k: nat)
    ensures FirstRounds(qs, lists, k) <= RoundRobin(qs, lists)
  {
    if k <= Longest(qs, lists) {
      RoundsPrefix(qs, lists, k, Longest(qs, lists));
    } else {
      LongestBound(qs, lists, k);
      RoundsStop(qs, lists, k);
    }
  }

  lemma PartOfRound(qs: seq<QueueInfo>, lists: Lists<QueueInfo, ResourceBindingInfo>, k: nat, i: nat)
    requires i <= |Alive(qs, lists, k)|
    ensures FirstRounds(qs, lists, k) + Round(Alive(qs, lists, k)[..i], lists, k) <= FirstRounds(qs, lists, k + 1)
  {
    AliveAgain(qs, lists, k);
    RoundPrefix(Alive(qs, lists, k), lists, k, i);
  }

  /** At every point of the loop, what was tried is a prefix of the whole visit. */
  lemma TriedIsPrefix(qs: seq<QueueInfo>, lists: Lists<QueueInfo, ResourceBindingInfo>, k: nat, i: nat,
                      queues: set<QueueInfo>, rounded: set<QueueInfo>, left: map<string, set<ResourceBindingInfo>>,
                      tried: seq<QueueTry>)
    requires LoopInv(qs, lists, k, i, queues, rounded, left, tried)
    ensures tried <= RoundRobin(qs, lists)
  {
    PartOfRound(qs, lists, k, i);
    PrefixOfVisit(qs, lists, k + 1);
  }

  /** In the loop, no queue is popped that has no binding left. */
  lemma LoopPops(qs: seq<QueueInfo>, lists: Lists<QueueInfo, ResourceBindingInfo>, queues: set<QueueInfo>,
                 rounded: set<QueueInfo>, left: map<string, set<ResourceBindingInfo>>, tried: seq<QueueTry>)
    requires Setup(qs) && Looping(qs, lists, queues, rounded, left, tried) && queues != {}
    ensures StrictTotalOn(QueueLess, queues)
    ensures var queue := Sort(QueueLess, queues)[0];
            queue in qs && queue.name in left && left[queue.name] != {} && StrictTotalOn(BindingLess, left[queue.name])
  {
    var k: nat, i: nat :| LoopInv(qs, lists, k, i, queues, rounded, left, tried);
    AliveIsRound(qs, lists, k);
    TurnPops(qs, lists, Alive(qs, lists, k), k, i, queues, rounded, left, FirstRounds(qs, lists, k), tried);
  }

  lemma RoundTurns(qs: seq<QueueInfo>, lists: Lists<QueueInfo, ResourceBindingInfo>, k: nat, i: nat,
                   queues: set<QueueInfo>, rounded: set<QueueInfo>, left: map<string, set<ResourceBindingInfo>>,
                   tried: seq<QueueTry>, queue: QueueInfo, queues': set<QueueInfo>, rbi: ResourceBindingInfo,
                   rest: set<ResourceBindingInfo>)
    requires Setup(qs) && LoopInv(qs, lists, k, i, queues, rounded, left, tried)
    requires Pops(QueueLess, queues, queue, queues')
    requires queue.name in left && Pops(BindingLess, left[queue.name], rbi, rest)
    ensures queue !in rounded
    ensures LoopInv(qs, lists, k, i + 1, queues', if rest != {} then rounded + {queue} else rounded,
                    left[queue.name := rest], tried + [Try(queue, rbi)])
  {
    var cur, before := Alive(qs, lists, k), FirstRounds(qs, lists, k);
    AliveIsRound(qs, lists, k);
    TurnPops(qs, lists, cur, k, i, queues, rounded, left, before, tried);
    assert queue == cur[i] && rbi == List(lists, queue)[k];
    PopsHolds(QueueLess, queues, queue, queues', cur[i..]);
    PopsHolds(BindingLess, left[queue.name], rbi, rest, Drop(List(lists, queue), k));
    TurnStep(qs, lists, cur, k, i, queues, rounded, left, before, tried, queues', rest);
  }

  /** One iteration of the loop: it keeps the invariant, and what it tries is the next try of the
      whole visit. */
  lemma LoopTurns(qs: seq<QueueInfo>, lists: Lists<QueueInfo, ResourceBindingInfo>, queues: set<QueueInfo>,
                  rounded: set<QueueInfo>, left: map<string, set<ResourceBindingInfo>>, tried: seq<QueueTry>,
                  queue: QueueInfo, queues': set<QueueInfo>, rbi: ResourceBindingInfo, rest: set<ResourceBindingInfo>,
                  ts: seq<QueueTry>)
    requires Setup(qs) && IsVisit(qs, lists, ts) && Looping(qs, lists, queues, rounded, left, tried)
    requires Pops(QueueLess, queues, queue, queues')
    requires queue.name in left && Pops(BindingLess, left[queue.name], rbi, rest)
    ensures queue !in rounded
    ensures Looping(qs, lists, queues', if rest != {} then rounded + {queue} else rounded,
                    left[queue.name := rest], tried + [Try(queue, rbi)])
    ensures tried + [Try(queue, rbi)] <= ts
  {
    var k: nat, i: nat :| LoopInv(qs, lists, k, i, queues, rounded, left, tried);
    RoundTurns(qs, lists, k, i, queues, rounded, left, tried, queue, queues', rbi, rest);
    TriedIsPrefix(qs, lists, k, i + 1, queues', if rest != {} then rounded + {queue} else rounded,
                  left[queue.name := rest], tried + [Try(queue, rbi)]);
  }

  // ----- the whole course of the loop -----

  /** The two queues of queues, and the bindings left. */
  datatype Point = Point(queues: set<QueueInfo>, rounded: set<QueueInfo>, left: map<string, set<ResourceBindingInfo>>)

  function Swapped(p: Point): Point {
    if p.queues == {} then Point(p.rounded, p.queues, p.left) else p
  }

  /** Popping a queue and a binding at p tries the one for the other, and leads to next. */
  ghost predicate PopsTo(p: Point, queue: QueueInfo, rbi: ResourceBindingInfo, next: Point) {
    && Pops(QueueLess, p.queues, queue, p.queues - {queue}) && queue !in p.rounded && queue.name in p.left
    && var rest := p.left[queue.name] - {rbi};
       && Pops(BindingLess, p.left[queue.name], rbi, rest)
       && next == Point(p.queues - {queue}, if rest != {} then p.rounded + {queue} else p.rounded,
                        p.left[queue.name := rest])
  }

  ghost predicate PointAt(points: seq<Point>, ts: seq<QueueTry>, n: nat) {
    n < |ts| && n + 1 < |points| ==> PopsTo(Swapped(points[n]), ts[n].queue, ts[n].binding, points[n + 1])
  }

  /** The points of the loop, one before every try, and the last one with nothing left to pop. */
  ghost predicate Course(points: seq<Point>, ts: seq<QueueTry>) {
    && |points| == |ts| + 1 && (forall n :: PointAt(points, ts, n))
    && points[|ts|].queues == {} && points[|ts|].rounded == {}
  }

  ghost predicate LoopingAt(qs: seq<QueueInfo>, lists: Lists<QueueInfo, ResourceBindingInfo>, p: Point,
                            tried: seq<QueueTry>)
  {
    Looping(qs, lists, p.queues, p.rounded, p.left, tried)
  }

  /** One turn from a point with a queue to pop. */
  lemma PointTurns(qs: seq<QueueInfo>, lists: Lists<QueueInfo, ResourceBindingInfo>, p: Point, ts: seq<QueueTry>,
                   n: nat)
    returns (next: Point)
    requires Setup(qs) && IsVisit(qs, lists, ts) && n <= |ts| && LoopingAt(qs, lists, p, ts[..n]) && p.queues != {}
    ensures n < |ts| && PopsTo(p, ts[n].queue, ts[n].binding, next) && LoopingAt(qs, lists, next, ts[..n + 1])
  {
    LoopPops(qs, lists, p.queues, p.rounded, p.left, ts[..n]);
    var (queue, others) := Pop(QueueLess, p.queues);
    var (rbi, rest) := Pop(BindingLess, p.left[queue.name]);
    LoopTurns(qs, lists, p.queues, p.rounded, p.left, ts[..n], queue, others, rbi, rest, ts);
    next := Point(others, if rest != {} then p.rounded + {queue} else p.rounded, p.left[queue.name := rest]);
    TryAt(ts, n, Try(queue, rbi));
  }

  lemma TryAt(ts: seq<QueueTry>, n: nat, t: QueueTry)
    requires n <= |ts| && ts[..n] + [t] <= ts
    ensures n < |ts| && ts[n] == t && ts[..n + 1] == ts[..n] + [t]
  {
    assert (ts[..n] + [t])[n] == ts[n];
  }

  lemma CourseCons(p: Point, points: seq<Point>, ts: seq<QueueTry>)
    requires ts != [] && Course(points, ts[1..]) && PopsTo(Swapped(p), ts[0].queue, ts[0].binding, points[0])
    ensures Course([p] + points, ts)
  {
    forall n: nat ensures PointAt([p] + points, ts, n) {
      if 0 < n < |ts| {
        assert PointAt(points, ts[1..], n - 1);
      }
    }
  }

  lemma CourseOfNone(p: Point, ts: seq<QueueTry>, n: nat)
    requires n <= |ts| && ts[..n] == ts && p.queues == {} && p.rounded == {}
    ensures Course([p], ts[n..])
  {
    assert |ts[..n]| == n;
  }

  lemma SuffixTail<T>(xs: seq<T>, n: nat)
    requires n < |xs|
    ensures xs[n..] != [] && xs[n..][0] == xs[n] && xs[n..][1..] == xs[n + 1..]
  {
  }

  lemma SwapLoops(qs: seq<QueueInfo>, lists: Lists<QueueInfo, ResourceBindingInfo>, p: Point, tried: seq<QueueTry>)
    requires LoopingAt(qs, lists, p, tried)
    ensures LoopingAt(qs, lists, Swapped(p), tried)
  {
    if p.queues == {} {
      LoopSwaps(qs, lists, p.queues, p.rounded, p.left, tried);
    }
  }

  /** From any point of the loop its course is determined, and tries the rest of the visit. */
  lemma {:induction false} CourseFrom(qs: seq<QueueInfo>, lists: Lists<QueueInfo, ResourceBindingInfo>, p: Point,
                                      ts: seq<QueueTry>, n: nat) returns (points: seq<Point>)
    requires Setup(qs) && IsVisit(qs, lists, ts) && n <= |ts| && LoopingAt(qs, lists, p, ts[..n])
    ensures Course(points, ts[n..]) && points[0] == p
    decreases |ts| - n
  {
    if p.queues == {} && p.rounded == {} {
      LoopEnds(qs, lists, p.queues, p.rounded, p.left, ts[..n], ts);
      CourseOfNone(p, ts, n);
      points := [p];
    } else {
      SwapLoops(qs, lists, p, ts[..n]);
      var next := PointTurns(qs, lists, Swapped(p), ts, n);
      var rest := CourseFrom(qs, lists, next, ts, n + 1);
      SuffixTail(ts, n);
      CourseCons(p, rest, ts[n..]);
      points := [p] + rest;
    }
  }

  /** The loop started on a session's queues runs through the whole visit. */
  lemma CourseOfVisit(qs: seq<QueueInfo>, lists: Lists<QueueInfo, ResourceBindingInfo>, queues: set<QueueInfo>,
                      left: map<string, set<ResourceBindingInfo>>, ts: seq<QueueTry>) returns (points: seq<Point>)
    requires Setup(qs) && IsVisit(qs, lists, ts) && Looping(qs, lists, queues, {}, left, [])
    ensures Course(points, ts) && points[0] == Point(queues, {}, left)
  {
    assert ts[..0] == [] && ts[0..] == ts;
    points := CourseFrom(qs, lists, Point(queues, {}, left), ts, 0);
  }
}
