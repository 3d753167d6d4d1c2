/** Resource amounts, as the scheduler library's Resource type: one amount per named dimension,
    a dimension that is not listed counting as zero. */
module Resources {

  type Dim = string

  const CPU: Dim := "cpu"
  const MEMORY: Dim := "memory"

  type Resource = map<Dim, nat>

  const EMPTY: Resource := map[]

  function Get(r: Resource, d: Dim): nat {
    if d in r then r[d] else 0
  }

  function Add(a: Resource, b: Resource): (r: Resource)
    ensures forall d :: Get(r, d) == Get(a, d) + Get(b, d)
  {
    map d | d in a.Keys + b.Keys :: Get(a, d) + Get(b, d)
  }

  /** Subtraction stops at zero; the library only accepts b below a. */
  function Sub(a: Resource, b: Resource): (r: Resource)
    ensures forall d :: Get(r, d) == if Get(a, d) < Get(b, d) then 0 else Get(a, d) - Get(b, d)
  {
    map d | d in a :: if a[d] < Get(b, d) then 0 else a[d] - Get(b, d)
  }

  function Multi(a: Resource, n: nat): (r: Resource)
    ensures forall d :: Get(r, d) == Get(a, d) * n
  {
    map d | d in a :: a[d] * n
  }

  /** Library contract: only the dimensions the request demands are compared. */
  predicate LessEqualWithDimension(r: Resource, limit: Resource, request: Resource) {
    forall d | d in request && request[d] > 0 :: Get(r, d) <= Get(limit, d)
  }

  /** Library contract for the minimum with default Infinity: a dimension the second
      argument does not list is unlimited; a dimension the first one lacks stays absent. */
  function MinDimension(r: Resource, limit: Resource): Resource {
    map d | d in r :: if d in limit && limit[d] < r[d] then limit[d] else r[d]
  }

  function ResourceNames(r: Resource): set<Dim> {
    {CPU, MEMORY} + r.Keys
  }

  /** The library's Share: used over limit, with the two conventions for a zero limit. */
  function Ratio(used: nat, limit: nat): real {
    if limit == 0 then (if used == 0 then 0.0 else 1.0) else used as real / limit as real
  }

  lemma AddCommutes(a: Resource, b: Resource)
    ensures Add(a, b) == Add(b, a)
  {
  }

  lemma AddAssociates(a: Resource, b: Resource, c: Resource)
    ensures Add(Add(a, b), c) == Add(a, Add(b, c))
  {
    var l, r := Add(Add(a, b), c), Add(a, Add(b, c));
    forall d | d in l ensures l[d] == r[d] {
      assert l[d] == Get(l, d) && r[d] == Get(r, d);
    }
    assert l.Keys == r.Keys;
  }

  /** Summing in any order. */

  ghost function Sum<K(!new)>(ks: set<K>, amounts: map<K, Resource>): Resource
    requires ks <= amounts.Keys
  {
    if ks == {} then EMPTY
    else
      var k :| k in ks;
      Add(Sum(ks - {k}, amounts), amounts[k])
  }

  /** Taking out any element first gives the same sum: the order of summation does not matter. */
  lemma {:induction false} SumTake<K(!new)>(ks: set<K>, amounts: map<K, Resource>, x: K)
    requires x in ks && ks <= amounts.Keys
    ensures Sum(ks, amounts) == Add(Sum(ks - {x}, amounts), amounts[x])
    decreases |ks|
  {
    var k :| k in ks && Sum(ks, amounts) == Add(Sum(ks - {k}, amounts), amounts[k]);
    if k != x {
      var rest := ks - {k} - {x};
      assert rest == ks - {x} - {k};
      SumTake(ks - {k}, amounts, x);
      SumTake(ks - {x}, amounts, k);
      var s := Sum(rest, amounts);
      AddAssociates(s, amounts[x], amounts[k]);
      AddAssociates(s, amounts[k], amounts[x]);
      AddCommutes(amounts[x], amounts[k]);
    }
  }

  lemma SumPut<K(!new)>(ks: set<K>, amounts: map<K, Resource>, x: K)
    requires ks <= amounts.Keys && x in amounts && x !in ks
    ensures Sum(ks + {x}, amounts) == Add(Sum(ks, amounts), amounts[x])
  {
    SumTake(ks + {x}, amounts, x);
    assert ks + {x} - {x} == ks;
  }

  lemma {:induction false} SumMonotone<K(!new)>(ks: set<K>, more: set<K>, amounts: map<K, Resource>, d: Dim)
    requires ks <= more <= amounts.Keys
    ensures Get(Sum(ks, amounts), d) <= Get(Sum(more, amounts), d)
    decreases |more - ks|
  {
    if ks != more {
      assert more == ks + (more - ks);
      var x :| x in more - ks;
      SumPut(ks, amounts, x);
      assert more - (ks + {x}) < more - ks;
      SumMonotone(ks + {x}, more, amounts, d);
    }
  }

  lemma {:induction false} SumUnion<K(!new)>(a: set<K>, b: set<K>, amounts: map<K, Resource>, d: Dim)
    requires a + b <= amounts.Keys && a !! b
    ensures Get(Sum(a + b, amounts), d) == Get(Sum(a, amounts), d) + Get(Sum(b, amounts), d)
    decreases |b|
  {
    if x :| x in b {
      SumTake(b, amounts, x);
      SumTake(a + b, amounts, x);
      assert a + b - {x} == a + (b - {x});
      SumUnion(a, b - {x}, amounts, d);
    } else {
      assert a + b == a;
    }
  }

  /** A sum is zero in a dimension iff every summand is. */
  lemma {:induction false} SumZero<K(!new)>(ks: set<K>, amounts: map<K, Resource>, d: Dim)
    requires ks <= amounts.Keys
    ensures Get(Sum(ks, amounts), d) == 0 <==> forall k | k in ks :: Get(amounts[k], d) == 0
    decreases |ks|
  {
    if x :| x in ks {
      SumTake(ks, amounts, x);
      SumZero(ks - {x}, amounts, d);
      assert forall k :: k in ks <==> k in ks - {x} || k == x;
    }
  }

  lemma {:induction false} SumSame<K(!new)>(ks: set<K>, a: map<K, Resource>, b: map<K, Resource>, d: Dim)
    requires ks <= a.Keys && ks <= b.Keys
    requires forall k | k in ks :: Get(a[k], d) == Get(b[k], d)
    ensures Get(Sum(ks, a), d) == Get(Sum(ks, b), d)
    decreases |ks|
  {
    if x :| x in ks {
      SumTake(ks, a, x);
      SumTake(ks, b, x);
      SumSame(ks - {x}, a, b, d);
    }
  }

  lemma {:induction false} SumAgrees<K(!new)>(ks: set<K>, a: map<K, Resource>, b: map<K, Resource>)
    requires ks <= a.Keys && ks <= b.Keys
    requires forall k | k in ks :: a[k] == b[k]
    ensures Sum(ks, a) == Sum(ks, b)
    decreases |ks|
  {
    if x :| x in ks {
      SumTake(ks, a, x);
      SumTake(ks, b, x);
      SumAgrees(ks - {x}, a, b);
    }
  }
}
