/** The order functions of a session: registered comparators in turn, then creation time,
    then UID. */
module Orders {
  import opened Api
  import opened Sorting

  /** Bytewise string order, as Go compares strings. */
  predicate StringLess(a: string, b: string) {
    b != [] && (a == [] || a[0] < b[0] || (a[0] == b[0] && StringLess(a[1..], b[1..])))
  }

  lemma {:induction false} StringLessIrreflexive(a: string)
    ensures !StringLess(a, a)
  {
    if a != [] {
      StringLessIrreflexive(a[1..]);
    }
  }

  lemma {:induction false} StringLessTransitive(a: string, b: string, c: string)
    requires StringLess(a, b) && StringLess(b, c)
    ensures StringLess(a, c)
  {
    if a != [] && a[0] == b[0] && b[0] == c[0] {
      StringLessTransitive(a[1..], b[1..], c[1..]);
    }
  }

  lemma {:induction false} StringLessTotal(a: string, b: string)
    requires a != b
    ensures StringLess(a, b) || StringLess(b, a)
  {
    if a != [] && b != [] && a[0] == b[0] {
      assert a == [a[0]] + a[1..] && b == [b[0]] + b[1..];
      StringLessTotal(a[1..], b[1..]);
    }
  }

  /** One string is a proper prefix of the other, or smaller at the first place they differ in. */
  ghost predicate SmallerAt(a: string, b: string, n: nat) {
    n <= |a| && n < |b| && a[..n] == b[..n] && (n == |a| || a[n] < b[n])
  }

  lemma {:induction false} StringLessMeaning(a: string, b: string)
    ensures StringLess(a, b) <==> exists n: nat :: SmallerAt(a, b, n)
  {
    if a == [] {
      assert b != [] ==> SmallerAt(a, b, 0);
    } else if b != [] && a[0] == b[0] {
      StringLessMeaning(a[1..], b[1..]);
      if n: nat :| SmallerAt(a[1..], b[1..], n) {
        assert a[..n + 1] == [a[0]] + a[1..][..n] && b[..n + 1] == [b[0]] + b[1..][..n];
        assert SmallerAt(a, b, n + 1);
      }
      if n: nat :| SmallerAt(a, b, n) {
        assert a[1..][..n - 1] == a[..n][1..] && b[1..][..n - 1] == b[..n][1..];
        assert SmallerAt(a[1..], b[1..], n - 1);
      }
    } else if b != [] {
      assert a[0] < b[0] ==> SmallerAt(a, b, 0);
      if n: nat :| SmallerAt(a, b, n) {
        assert n > 0 ==> a[..n][0] == b[..n][0];
      }
    }
  }

  /** A comparator that answers a sign: opposite arguments give the opposite sign, and "not
      after" is transitive. */
  ghost predicate Consistent<T(!new)>(compare: (T, T) -> int) {
    && (forall a, b :: compare(a, b) < 0 <==> compare(b, a) > 0)
    && (forall a, b, c :: compare(a, b) <= 0 && compare(b, c) <= 0 ==> compare(a, c) <= 0)
  }

  /** The first comparator with an opinion decides; else creation time, else UID. */
  predicate OrderFn<T>(compares: seq<(T, T) -> int>, created: T -> int, uid: T -> string, l: T, r: T) {
    if compares == [] then
      if created(l) == created(r) then StringLess(uid(l), uid(r)) else created(l) < created(r)
    else
      var result := compares[0](l, r);
      if result != 0 then result < 0 else OrderFn(compares[1..], created, uid, l, r)
  }

  lemma {:induction false} OrderFnIrreflexive<T(!new)>(compares: seq<(T, T) -> int>, created: T -> int,
                                                       uid: T -> string, a: T)
    requires forall c | c in compares :: Consistent(c)
    ensures !OrderFn(compares, created, uid, a, a)
  {
    if compares == [] {
      StringLessIrreflexive(uid(a));
    } else {
      assert Consistent(compares[0]);
      OrderFnIrreflexive(compares[1..], created, uid, a);
    }
  }

  lemma {:induction false} OrderFnTransitive<T(!new)>(compares: seq<(T, T) -> int>, created: T -> int,
                                                      uid: T -> string, a: T, b: T, c: T)
    requires forall f | f in compares :: Consistent(f)
    requires OrderFn(compares, created, uid, a, b) && OrderFn(compares, created, uid, b, c)
    ensures OrderFn(compares, created, uid, a, c)
  {
    if compares == [] {
      if created(a) == created(b) == created(c) {
        StringLessTransitive(uid(a), uid(b), uid(c));
      }
    } else {
      var f := compares[0];
      assert Consistent(f);
      if f(a, b) == 0 && f(b, c) == 0 {
        assert f(a, c) <= 0 && f(c, a) <= 0;
        OrderFnTransitive(compares[1..], created, uid, a, b, c);
      } else {
        assert f(c, b) <= 0 && f(b, a) <= 0 ==> f(c, a) <= 0;
      }
    }
  }

  lemma {:induction false} OrderFnTotal<T(!new)>(compares: seq<(T, T) -> int>, created: T -> int, uid: T -> string,
                                                 a: T, b: T)
    requires forall c | c in compares :: Consistent(c)
    requires uid(a) != uid(b)
    ensures OrderFn(compares, created, uid, a, b) || OrderFn(compares, created, uid, b, a)
  {
    if compares == [] {
      StringLessTotal(uid(a), uid(b));
    } else {
      assert Consistent(compares[0]);
      OrderFnTotal(compares[1..], created, uid, a, b);
    }
  }

  /** The comparators in turn: the first that has an opinion decides. */
  lemma {:induction false} FirstOpinionDecides<T>(compares: seq<(T, T) -> int>, created: T -> int, uid: T -> string,
                                                  l: T, r: T, n: nat)
    requires n <= |compares| && forall i | 0 <= i < n :: compares[i](l, r) == 0
    ensures n < |compares| && compares[n](l, r) != 0 ==>
              (OrderFn(compares, created, uid, l, r) <==> compares[n](l, r) < 0)
    ensures n == |compares| ==>
              (OrderFn(compares, created, uid, l, r) <==>
                 created(l) < created(r) || (created(l) == created(r) && StringLess(uid(l), uid(r))))
  {
    if n > 0 {
      assert compares[0](l, r) == 0;
      FirstOpinionDecides(compares[1..], created, uid, l, r, n - 1);
    }
  }

  ghost predicate DistinctBy<T(!new)>(uid: T -> string, s: set<T>) {
    forall a, b | a in s && b in s && uid(a) == uid(b) :: a == b
  }

  /** For any fixed list of consistent comparators the order function is a strict total order
      on elements told apart by UID. */
  lemma OrderFnStrictTotal<T(!new)>(compares: seq<(T, T) -> int>, created: T -> int, uid: T -> string,
                                    less: (T, T) -> bool, s: set<T>)
    requires forall c | c in compares :: Consistent(c)
    requires DistinctBy(uid, s)
    requires forall a, b :: less(a, b) == OrderFn(compares, created, uid, a, b)
    ensures StrictTotalOn(less, s)
  {
    forall a, b, c ensures OrderedAt(less, s, a, b, c) {
      if a in s && b in s && c in s {
        OrderFnIrreflexive(compares, created, uid, a);
        if less(a, b) && less(b, c) {
          OrderFnTransitive(compares, created, uid, a, b, c);
        }
        if a != b {
          OrderFnTotal(compares, created, uid, a, b);
        }
      }
    }
  }

  /** Higher priority first. */
  function ComparePriority(l: int, r: int): int {
    if l == r then 0 else if l > r then -1 else 1
  }

  /** The capacity plugin's queue comparator and the priority plugin's binding comparator. */
  function QueueOrderFunc(l: QueueInfo, r: QueueInfo): int {
    ComparePriority(l.priority, r.priority)
  }

  function ResourceBindingInfoOrderFunc(l: ResourceBindingInfo, r: ResourceBindingInfo): int {
    ComparePriority(l.priority, r.priority)
  }

  function QueueCreated(q: QueueInfo): int { q.created }

  function QueueUid(q: QueueInfo): string { q.uid }

  function BindingCreated(b: ResourceBindingInfo): int { b.rb.created }

  function BindingUid(b: ResourceBindingInfo): string { b.rb.uid }

  predicate QueueLess(l: QueueInfo, r: QueueInfo) {
    OrderFn([QueueOrderFunc], QueueCreated, QueueUid, l, r)
  }

  predicate BindingLess(l: ResourceBindingInfo, r: ResourceBindingInfo) {
    OrderFn([ResourceBindingInfoOrderFunc], BindingCreated, BindingUid, l, r)
  }

  lemma QueueLessStrictTotal(s: set<QueueInfo>)
    requires forall a, b | a in s && b in s && a.uid == b.uid :: a == b
    ensures StrictTotalOn(QueueLess, s)
  {
    OrderFnStrictTotal([QueueOrderFunc], QueueCreated, QueueUid, QueueLess, s);
  }

  lemma BindingLessStrictTotal(s: set<ResourceBindingInfo>)
    requires forall a, b | a in s && b in s && a.rb.uid == b.rb.uid :: a == b
    ensures StrictTotalOn(BindingLess, s)
  {
    OrderFnStrictTotal([ResourceBindingInfoOrderFunc], BindingCreated, BindingUid, BindingLess, s);
  }

  /** What the binding order means: priority, then age, then UID. */
  lemma BindingLessMeaning(l: ResourceBindingInfo, r: ResourceBindingInfo)
    ensures BindingLess(l, r) <==>
            || l.priority > r.priority
            || (l.priority == r.priority && l.rb.created < r.rb.created)
            || (l.priority == r.priority && l.rb.created == r.rb.created && StringLess(l.rb.uid, r.rb.uid))
  {
    var none: seq<(ResourceBindingInfo, ResourceBindingInfo) -> int> := [];
    assert [ResourceBindingInfoOrderFunc][1..] == none;
    assert OrderFn(none, BindingCreated, BindingUid, l, r) ==
           if l.rb.created == r.rb.created then StringLess(l.rb.uid, r.rb.uid) else l.rb.created < r.rb.created;
  }

  /** What the queue order means: the higher priority first, then age, then UID. */
  lemma QueueLessMeaning(l: QueueInfo, r: QueueInfo)
    ensures QueueLess(l, r) <==>
            || l.priority > r.priority
            || (l.priority == r.priority && l.created < r.created)
            || (l.priority == r.priority && l.created == r.created && StringLess(l.uid, r.uid))
  {
    var none: seq<(QueueInfo, QueueInfo) -> int> := [];
    assert [QueueOrderFunc][1..] == none;
    assert OrderFn(none, QueueCreated, QueueUid, l, r) ==
           if l.created == r.created then StringLess(l.uid, r.uid) else l.created < r.created;
  }
}
