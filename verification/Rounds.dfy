/** The order a round-robin visits sorted lists in: round k takes the k-th entry of every list
    that is that long, the lists in a fixed order. */
module Rounds {

  datatype Try<Q, B> = Try(queue: Q, binding: B)

  type Lists<!Q(==), B> = map<Q, seq<B>>

  ghost function List<Q, B>(lists: Lists<Q, B>, q: Q): seq<B> {
    if q in lists then lists[q] else []
  }

  /** The queues whose list reaches round k. */
  ghost function Alive<Q, B>(qs: seq<Q>, lists: Lists<Q, B>, k: nat): seq<Q> {
    if qs == [] then []
    else
      var rest, q := Alive(qs[..|qs| - 1], lists, k), qs[|qs| - 1];
      if k < |List(lists, q)| then rest + [q] else rest
  }

  /** The tries of round k. */
  ghost function Round<Q, B>(qs: seq<Q>, lists: Lists<Q, B>, k: nat): seq<Try<Q, B>> {
    if qs == [] then []
    else
      var rest, q := Round(qs[..|qs| - 1], lists, k), qs[|qs| - 1];
      if k < |List(lists, q)| then rest + [Try(q, List(lists, q)[k])] else rest
  }

  /** The tries of rounds 0 to n - 1. */
  ghost function FirstRounds<Q, B>(qs: seq<Q>, lists: Lists<Q, B>, n: nat): seq<Try<Q, B>> {
    if n == 0 then [] else FirstRounds(qs, lists, n - 1) + Round(qs, lists, n - 1)
  }

  ghost function Longest<Q, B>(qs: seq<Q>, lists: Lists<Q, B>): nat {
    if qs == [] then 0
    else
      var n, m := Longest(qs[..|qs| - 1], lists), |List(lists, qs[|qs| - 1])|;
      if n < m then m else n
  }

  /** The whole visit. */
  ghost function RoundRobin<Q, B>(qs: seq<Q>, lists: Lists<Q, B>): seq<Try<Q, B>> {
    FirstRounds(qs, lists, Longest(qs, lists))
  }

  /** The entries of one queue, in the order tried. */
  ghost function Project<Q, B>(tries: seq<Try<Q, B>>, q: Q): seq<B> {
    if tries == [] then []
    else
      var rest, t := Project(tries[..|tries| - 1], q), tries[|tries| - 1];
      if t.queue == q then rest + [t.binding] else rest
  }

  ghost predicate Differ<T>(xs: seq<T>, i: nat, j: nat) {
    i < j < |xs| ==> xs[i] != xs[j]
  }

  ghost predicate Distinct<T>(xs: seq<T>) {
    forall i, j :: Differ(xs, i, j)
  }

  lemma DistinctInit<T>(xs: seq<T>)
    requires Distinct(xs) && xs != []
    ensures Distinct(xs[..|xs| - 1]) && xs[|xs| - 1] !in xs[..|xs| - 1]
  {
    var init := xs[..|xs| - 1];
    forall i: nat, j: nat ensures Differ(init, i, j) {
      assert Differ(xs, i, j);
    }
    if xs[|xs| - 1] in init {
      LastRepeats(xs);
    }
  }

  lemma LastRepeats<T>(xs: seq<T>)
    requires xs != [] && xs[|xs| - 1] in xs[..|xs| - 1]
    ensures !Distinct(xs)
  {
    var i :| 0 <= i < |xs| - 1 && xs[i] == xs[|xs| - 1];
    assert !Differ(xs, i, |xs| - 1);
  }

  lemma DistinctSnoc<T>(xs: seq<T>, x: T)
    requires Distinct(xs) && x !in xs
    ensures Distinct(xs + [x])
  {
    forall i: nat, j: nat ensures Differ(xs + [x], i, j) {
      assert Differ(xs, i, j);
    }
  }

  lemma {:induction false} AliveMembers<Q, B>(qs: seq<Q>, lists: Lists<Q, B>, k: nat)
    ensures forall q :: q in Alive(qs, lists, k) <==> q in qs && k < |List(lists, q)|
    ensures Distinct(qs) ==> Distinct(Alive(qs, lists, k))
  {
    if qs != [] {
      var init := qs[..|qs| - 1];
      AliveMembers(init, lists, k);
      assert qs == init + [qs[|qs| - 1]];
      if Distinct(qs) {
        DistinctInit(qs);
        if k < |List(lists, qs[|qs| - 1])| {
          DistinctSnoc(Alive(init, lists, k), qs[|qs| - 1]);
        }
      }
    }
  }

  /** The survivors of a round are the next round's queues, and only they have tries in it. */
  lemma {:induction false} AliveAgain<Q, B>(qs: seq<Q>, lists: Lists<Q, B>, k: nat)
    ensures Alive(Alive(qs, lists, k), lists, k + 1) == Alive(qs, lists, k + 1)
    ensures Round(Alive(qs, lists, k), lists, k) == Round(qs, lists, k)
  {
    if qs != [] {
      var init, q := qs[..|qs| - 1], qs[|qs| - 1];
      AliveAgain(init, lists, k);
      var cur := Alive(qs, lists, k);
      if k < |List(lists, q)| {
        assert cur[..|cur| - 1] == Alive(init, lists, k);
      } else {
        assert cur == Alive(init, lists, k);
        assert Round(qs, lists, k) == Round(init, lists, k);
      }
    }
  }

  /** Every survivor of round k has exactly one try in it. */
  lemma RoundStep<Q, B>(cur: seq<Q>, lists: Lists<Q, B>, k: nat, i: nat)
    requires i < |cur| && k < |List(lists, cur[i])|
    ensures Round(cur[..i + 1], lists, k) == Round(cur[..i], lists, k) + [Try(cur[i], List(lists, cur[i])[k])]
    ensures var rest := Alive(cur[..i], lists, k + 1);
            Alive(cur[..i + 1], lists, k + 1) == if k + 1 < |List(lists, cur[i])| then rest + [cur[i]] else rest
  {
    assert cur[..i + 1][..i] == cur[..i];
  }

  lemma {:induction false} LongestBound<Q, B>(qs: seq<Q>, lists: Lists<Q, B>, k: nat)
    ensures Longest(qs, lists) <= k <==> Alive(qs, lists, k) == []
    ensures Longest(qs, lists) <= k ==> Round(qs, lists, k) == []
  {
    if qs != [] {
      LongestBound(qs[..|qs| - 1], lists, k);
    }
  }

  lemma {:induction false} RoundsStay<Q, B>(qs: seq<Q>, lists: Lists<Q, B>, m: nat, n: nat)
    requires m <= n && forall k: nat | m <= k :: Round(qs, lists, k) == []
    ensures FirstRounds(qs, lists, n) == FirstRounds(qs, lists, m)
    decreases n
  {
    if m < n {
      RoundsStay(qs, lists, m, n - 1);
      assert Round(qs, lists, n - 1) == [];
    }
  }

  /** Stopping at any exhausted round has visited everything. */
  lemma RoundsStop<Q, B>(qs: seq<Q>, lists: Lists<Q, B>, n: nat)
    requires Alive(qs, lists, n) == []
    ensures FirstRounds(qs, lists, n) == RoundRobin(qs, lists)
  {
    var m := Longest(qs, lists);
    LongestBound(qs, lists, n);
    forall k: nat | m <= k ensures Round(qs, lists, k) == [] {
      LongestBound(qs, lists, k);
    }
    RoundsStay(qs, lists, m, n);
  }

  lemma {:induction false} ProjectAppend<Q, B>(s: seq<Try<Q, B>>, t: seq<Try<Q, B>>, q: Q)
    ensures Project(s + t, q) == Project(s, q) + Project(t, q)
    decreases |t|
  {
    if t == [] {
      assert s + t == s;
    } else {
      assert (s + t)[..|s + t| - 1] == s + t[..|t| - 1];
      ProjectAppend(s, t[..|t| - 1], q);
    }
  }

  lemma {:induction false} ProjectRound<Q, B>(qs: seq<Q>, lists: Lists<Q, B>, k: nat, q: Q)
    requires Distinct(qs)
    ensures Project(Round(qs, lists, k), q)
         == if q in qs then EntryOf(List(lists, q), k) else []
  {
    if qs != [] {
      var init, l := qs[..|qs| - 1], qs[|qs| - 1];
      assert qs == init + [l];
      DistinctInit(qs);
      ProjectRound(init, lists, k, q);
      if k < |List(lists, l)| {
        var t := Try(l, List(lists, l)[k]);
        assert Round(qs, lists, k) == Round(init, lists, k) + [t];
        ProjectAppend(Round(init, lists, k), [t], q);
        assert [t][..0] == [];
        assert Project([t], q) == if l == q then [t.binding] else [];
      } else {
        assert Round(qs, lists, k) == Round(init, lists, k);
      }
    }
  }

  lemma ProjectNext<Q, B>(before: seq<Try<Q, B>>, round: seq<Try<Q, B>>, q: Q, l: seq<B>, k: nat)
    requires Project(before, q) == UpTo(l, k) && Project(round, q) == EntryOf(l, k)
    ensures Project(before + round, q) == UpTo(l, k + 1)
  {
    ProjectAppend(before, round, q);
    UpToNext(l, k);
  }

  lemma ProjectNextRound<Q, B>(qs: seq<Q>, lists: Lists<Q, B>, n: nat, q: Q)
    requires Distinct(qs) && q in qs
    requires Project(FirstRounds(qs, lists, n), q) == UpTo(List(lists, q), n)
    ensures Project(FirstRounds(qs, lists, n + 1), q) == UpTo(List(lists, q), n + 1)
  {
    ProjectRound(qs, lists, n, q);
    ProjectNext(FirstRounds(qs, lists, n), Round(qs, lists, n), q, List(lists, q), n);
  }

  lemma ProjectNoRounds<Q, B>(qs: seq<Q>, lists: Lists<Q, B>, q: Q)
    ensures Project(FirstRounds(qs, lists, 0), q) == UpTo(List(lists, q), 0)
  {
  }

  lemma {:induction false} ProjectRounds<Q, B>(qs: seq<Q>, lists: Lists<Q, B>, n: nat, q: Q)
    requires Distinct(qs) && q in qs
    ensures Project(FirstRounds(qs, lists, n), q) == UpTo(List(lists, q), n)
    decreases n
  {
    if n == 0 {
      ProjectNoRounds(qs, lists, q);
    } else {
      ProjectRounds(qs, lists, n - 1, q);
      ProjectNextRound(qs, lists, n - 1, q);
    }
  }

  ghost function EntryOf<B>(l: seq<B>, k: nat): seq<B> {
    if k < |l| then [l[k]] else []
  }

  ghost function UpTo<B>(l: seq<B>, n: nat): seq<B> {
    if n < |l| then l[..n] else l
  }

  lemma UpToNext<B>(l: seq<B>, n: nat)
    ensures UpTo(l, n + 1) == UpTo(l, n) + EntryOf(l, n)
  {
  }

  /** Seen from one queue, the round-robin tries exactly that queue's list, in its order. */
  lemma ProjectRoundRobin<Q, B>(qs: seq<Q>, lists: Lists<Q, B>, q: Q)
    requires Distinct(qs) && q in qs
    ensures Project(RoundRobin(qs, lists), q) == List(lists, q)
  {
    var n := Longest(qs, lists);
    LongestBound(qs, lists, n);
    AliveMembers(qs, lists, n);
    ProjectRounds(qs, lists, n, q);
  }

  /** Nothing but the queues' list entries is ever tried. */
  lemma {:induction false} TriedIsListed<Q, B>(qs: seq<Q>, lists: Lists<Q, B>, n: nat)
    ensures forall t | t in FirstRounds(qs, lists, n) :: t.queue in qs && t.binding in List(lists, t.queue)
  {
    if n > 0 {
      TriedIsListed(qs, lists, n - 1);
      RoundIsListed(qs, lists, n - 1);
    }
  }

  lemma {:induction false} RoundIsListed<Q, B>(qs: seq<Q>, lists: Lists<Q, B>, k: nat)
    ensures forall t | t in Round(qs, lists, k) :: t.queue in qs && t.binding in List(lists, t.queue)
  {
    if qs != [] {
      RoundIsListed(qs[..|qs| - 1], lists, k);
    }
  }

  lemma {:induction false} PrefixShape<Q, B>(qs: seq<Q>, lists: Lists<Q, B>, n: nat, m: nat) returns (k: nat, j: nat)
    requires m <= |FirstRounds(qs, lists, n)|
    ensures j <= |Round(qs, lists, k)|
    ensures FirstRounds(qs, lists, n)[..m] == FirstRounds(qs, lists, k) + Round(qs, lists, k)[..j]
  {
    if n == 0 {
      k, j := 0, 0;
    } else {
      var before := FirstRounds(qs, lists, n - 1);
      if m < |before| {
        k, j := PrefixShape(qs, lists, n - 1, m);
      } else {
        k, j := n - 1, m - |before|;
      }
    }
  }

  /** Fairness: at every moment, two queues that both still have entries left have been tried
      equally often, give or take one. */
  lemma RoundRobinIsFair<Q, B>(qs: seq<Q>, lists: Lists<Q, B>, m: nat, p: Q, q: Q)
    requires Distinct(qs) && p in qs && q in qs && m <= |RoundRobin(qs, lists)|
    requires |Project(RoundRobin(qs, lists)[..m], p)| < |List(lists, p)|
    requires |Project(RoundRobin(qs, lists)[..m], q)| < |List(lists, q)|
    ensures -1 <= |Project(RoundRobin(qs, lists)[..m], p)| - |Project(RoundRobin(qs, lists)[..m], q)| <= 1
  {
    var k, j := PrefixShape(qs, lists, Longest(qs, lists), m);
    PrefixCount(qs, lists, k, j, p);
    PrefixCount(qs, lists, k, j, q);
  }

  lemma PrefixCount<Q, B>(qs: seq<Q>, lists: Lists<Q, B>, k: nat, j: nat, q: Q)
    requires Distinct(qs) && q in qs && j <= |Round(qs, lists, k)|
    requires |Project(FirstRounds(qs, lists, k) + Round(qs, lists, k)[..j], q)| < |List(lists, q)|
    ensures k <= |Project(FirstRounds(qs, lists, k) + Round(qs, lists, k)[..j], q)| <= k + 1
  {
    var first, r := FirstRounds(qs, lists, k), Round(qs, lists, k);
    assert |Project(first + r[..j], q)| == |Project(first, q)| + |Project(r[..j], q)| by {
      ProjectAppend(first, r[..j], q);
    }
    assert Project(first, q) == UpTo(List(lists, q), k) by { ProjectRounds(qs, lists, k, q); }
    PartOfRoundCount(qs, lists, k, j, q);
  }

  lemma PartOfRoundCount<Q, B>(qs: seq<Q>, lists: Lists<Q, B>, k: nat, j: nat, q: Q)
    requires Distinct(qs) && q in qs && j <= |Round(qs, lists, k)|
    ensures |Project(Round(qs, lists, k)[..j], q)| <= 1
  {
    var r := Round(qs, lists, k);
    ProjectAppend(r[..j], r[j..], q);
    assert r == r[..j] + r[j..];
    ProjectRound(qs, lists, k, q);
  }

  lemma {:induction false} ProjectMembers<Q, B>(tries: seq<Try<Q, B>>, q: Q, b: B)
    ensures b in Project(tries, q) <==> Try(q, b) in tries
  {
    if tries != [] {
      var init, t := tries[..|tries| - 1], tries[|tries| - 1];
      assert tries == init + [t];
      ProjectMembers(init, q, b);
    }
  }

  /** If no queue sees an entry twice, no try happens twice. */
  lemma {:induction false} DistinctFromProjections<Q, B>(tries: seq<Try<Q, B>>)
    requires forall q :: Distinct(Project(tries, q))
    ensures Distinct(tries)
  {
    if tries != [] {
      var init, t := tries[..|tries| - 1], tries[|tries| - 1];
      forall q ensures Distinct(Project(init, q)) {
        assert Distinct(Project(tries, q));
        if t.queue == q {
          DistinctInit(Project(tries, q));
        }
      }
      DistinctFromProjections(init);
      ProjectMembers(init, t.queue, t.binding);
      assert Distinct(Project(tries, t.queue));
      DistinctInit(Project(tries, t.queue));
      DistinctSnoc(init, t);
      assert tries == init + [t];
    }
  }

  lemma {:induction false} ProjectNone<Q, B>(tries: seq<Try<Q, B>>, q: Q)
    requires forall t | t in tries :: t.queue != q
    ensures Project(tries, q) == []
  {
    if tries != [] {
      ProjectNone(tries[..|tries| - 1], q);
      assert tries[|tries| - 1] in tries;
    }
  }

  // ----- which of two tries comes first -----

  ghost predicate Precedes<Q>(qs: seq<Q>, p: Q, q: Q) {
    exists a, b :: 0 <= a < b < |qs| && qs[a] == p && qs[b] == q
  }

  /** How often the queue of a try was tried before it. */
  ghost function RoundOf<Q, B>(ts: seq<Try<Q, B>>, i: nat): nat
    requires i < |ts|
  {
    |Project(ts[..i], ts[i].queue)|
  }

  lemma {:induction false} RoundEntry<Q, B>(qs: seq<Q>, lists: Lists<Q, B>, k: nat, p: nat)
    requires p < |Round(qs, lists, k)|
    ensures var t := Round(qs, lists, k)[p];
            t.queue in qs && k < |List(lists, t.queue)| && t.binding == List(lists, t.queue)[k]
  {
    if qs != [] && p < |Round(qs[..|qs| - 1], lists, k)| {
      RoundEntry(qs[..|qs| - 1], lists, k, p);
    }
  }

  /** Within a round the queues come in their order. */
  lemma {:induction false} RoundOrdered<Q, B>(qs: seq<Q>, lists: Lists<Q, B>, k: nat, p: nat, r: nat)
    requires p < r < |Round(qs, lists, k)|
    ensures Precedes(qs, Round(qs, lists, k)[p].queue, Round(qs, lists, k)[r].queue)
  {
    var init := qs[..|qs| - 1];
    if r < |Round(init, lists, k)| {
      RoundOrdered(init, lists, k, p, r);
      var a, b :| 0 <= a < b < |init| && init[a] == Round(init, lists, k)[p].queue
                  && init[b] == Round(init, lists, k)[r].queue;
      assert qs[a] == init[a] && qs[b] == init[b];
    } else {
      RoundEntry(init, lists, k, p);
      var a :| 0 <= a < |init| && init[a] == Round(init, lists, k)[p].queue;
      assert qs[a] == init[a];
    }
  }

  lemma SameIndex<Q>(qs: seq<Q>, a: nat, b: nat)
    requires Distinct(qs) && a < |qs| && b < |qs| && qs[a] == qs[b]
    ensures a == b
  {
    assert Differ(qs, a, b) && Differ(qs, b, a);
  }

  lemma PrecedesDistinct<Q>(qs: seq<Q>, p: Q, q: Q)
    requires Distinct(qs) && Precedes(qs, p, q)
    ensures p != q && !Precedes(qs, q, p)
  {
    var a, b :| 0 <= a < b < |qs| && qs[a] == p && qs[b] == q;
    assert Differ(qs, a, b);
    if Precedes(qs, q, p) {
      var c, d :| 0 <= c < d < |qs| && qs[c] == q && qs[d] == p;
      SameIndex(qs, a, d);
      SameIndex(qs, b, c);
    }
  }

  /** Every try belongs to a round, and has a place in it. */
  lemma {:induction false} PlaceOf<Q, B>(qs: seq<Q>, lists: Lists<Q, B>, n: nat, i: nat) returns (k: nat, p: nat)
    requires i < |FirstRounds(qs, lists, n)|
    ensures k < n && p < |Round(qs, lists, k)| && i == |FirstRounds(qs, lists, k)| + p
    ensures FirstRounds(qs, lists, n)[i] == Round(qs, lists, k)[p]
    ensures FirstRounds(qs, lists, n)[..i] == FirstRounds(qs, lists, k) + Round(qs, lists, k)[..p]
  {
    var before := FirstRounds(qs, lists, n - 1);
    if i < |before| {
      k, p := PlaceOf(qs, lists, n - 1, i);
    } else {
      k, p := n - 1, i - |before|;
    }
  }

  lemma {:induction false} RoundsGrow<Q, B>(qs: seq<Q>, lists: Lists<Q, B>, k: nat, n: nat)
    requires k < n
    ensures |FirstRounds(qs, lists, k)| + |Round(qs, lists, k)| <= |FirstRounds(qs, lists, n)|
    decreases n
  {
    if k < n - 1 {
      RoundsGrow(qs, lists, k, n - 1);
    }
  }

  lemma OncePerRound<Q, B>(qs: seq<Q>, lists: Lists<Q, B>, k: nat, p: nat)
    requires Distinct(qs) && p < |Round(qs, lists, k)|
    ensures Project(Round(qs, lists, k)[..p], Round(qs, lists, k)[p].queue) == []
  {
    var r := Round(qs, lists, k);
    forall t | t in r[..p] ensures t.queue != r[p].queue {
      var a :| 0 <= a < p && r[a] == t;
      RoundOrdered(qs, lists, k, a, p);
      PrecedesDistinct(qs, r[a].queue, r[p].queue);
    }
    ProjectNone(r[..p], r[p].queue);
  }

  /** The round a try belongs to is how often its queue was tried before. */
  lemma RoundIsCount<Q, B>(qs: seq<Q>, lists: Lists<Q, B>, k: nat, p: nat)
    requires Distinct(qs) && p < |Round(qs, lists, k)|
    ensures |Project(FirstRounds(qs, lists, k) + Round(qs, lists, k)[..p], Round(qs, lists, k)[p].queue)| == k
  {
    var first, r := FirstRounds(qs, lists, k), Round(qs, lists, k);
    RoundEntry(qs, lists, k, p);
    ProjectAppend(first, r[..p], r[p].queue);
    ProjectRounds(qs, lists, k, r[p].queue);
    OncePerRound(qs, lists, k, p);
  }

  ghost predicate ComesBefore<Q, B>(qs: seq<Q>, ts: seq<Try<Q, B>>, i: nat, j: nat)
    requires i < |ts| && j < |ts|
  {
    RoundOf(ts, i) < RoundOf(ts, j) || (RoundOf(ts, i) == RoundOf(ts, j) && Precedes(qs, ts[i].queue, ts[j].queue))
  }

  lemma EarlierComesBefore<Q, B>(qs: seq<Q>, lists: Lists<Q, B>, n: nat, i: nat, j: nat)
    requires Distinct(qs) && i < j < |FirstRounds(qs, lists, n)|
    ensures ComesBefore(qs, FirstRounds(qs, lists, n), i, j)
  {
    var k, p := PlaceOf(qs, lists, n, i);
    var l, r := PlaceOf(qs, lists, n, j);
    RoundIsCount(qs, lists, k, p);
    RoundIsCount(qs, lists, l, r);
    if k == l {
      RoundOrdered(qs, lists, k, p, r);
    } else if l < k {
      RoundsGrow(qs, lists, l, k);
    }
  }

  /** The order of the visit, exactly: a try comes before another iff its queue had fewer turns
      before it, or equally many and is ahead in the order of the queues. */
  lemma RoundRobinOrder<Q, B>(qs: seq<Q>, lists: Lists<Q, B>, i: nat, j: nat)
    requires Distinct(qs) && i < |RoundRobin(qs, lists)| && j < |RoundRobin(qs, lists)|
    ensures i < j <==> ComesBefore(qs, RoundRobin(qs, lists), i, j)
  {
    var ts := RoundRobin(qs, lists);
    if i < j {
      EarlierComesBefore(qs, lists, Longest(qs, lists), i, j);
    } else if ComesBefore(qs, ts, i, j) {
      PrecedesUnlessLess(qs, ts, i, j);
      if j < i {
        EarlierComesBefore(qs, lists, Longest(qs, lists), j, i);
        PrecedesUnlessLess(qs, ts, j, i);
      }
    }
  }

  lemma PrecedesUnlessLess<Q, B>(qs: seq<Q>, ts: seq<Try<Q, B>>, i: nat, j: nat)
    requires Distinct(qs) && i < |ts| && j < |ts| && ComesBefore(qs, ts, i, j)
    ensures i != j && !ComesBefore(qs, ts, j, i)
  {
    if Precedes(qs, ts[i].queue, ts[j].queue) {
      PrecedesDistinct(qs, ts[i].queue, ts[j].queue);
    }
  }

  lemma {:induction false} ProjectAt<Q, B>(ts: seq<Try<Q, B>>, i: nat)
    requires i < |ts|
    ensures RoundOf(ts, i) < |Project(ts, ts[i].queue)| && Project(ts, ts[i].queue)[RoundOf(ts, i)] == ts[i].binding
  {
    var q := ts[i].queue;
    assert ts == ts[..i] + ts[i..] && ts[i..] == [ts[i]] + ts[i + 1..];
    ProjectAppend(ts[..i], ts[i..], q);
    ProjectAppend([ts[i]], ts[i + 1..], q);
    assert [ts[i]][..0] == [];
    assert Project([ts[i]], q) == [ts[i].binding];
  }

  lemma LaterRound<Q, B>(ts: seq<Try<Q, B>>, i: nat, j: nat)
    requires i < j < |ts| && ts[i].queue == ts[j].queue
    ensures RoundOf(ts, i) < RoundOf(ts, j)
  {
    ProjectAt(ts[..j], i);
    assert ts[..j][..i] == ts[..i];
  }
}
