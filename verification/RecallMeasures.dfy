/** What a similarity says of two vectors: the angle between them. */
module RecallMeasures {
  import opened Text
  import opened Money
  import opened Order
  import opened Recall

  /** A dot product is the sum of the products of the components, wherever the vectors are cut. */
  lemma {:induction false} DotSplits(a: Vec, b: Vec, c: Vec, d: Vec)
    requires |a| == |b| && |c| == |d|
    ensures Dot(a + c, b + d) == Dot(a, b) + Dot(c, d)
  {
    if c == [] {
      assert a + c == a && b + d == b;
    } else {
      var n := |c| - 1;
      DotSplits(a, b, c[..n], d[..n]);
      assert (a + c)[..|a| + n] == a + c[..n] && (b + d)[..|b| + n] == b + d[..n];
    }
  }

  lemma {:induction false} DotOne(x: real, y: real)
    ensures Dot([x], [y]) == x * y && Dot([], []) == 0.0
  {
    assert [x][..0] == [] && [y][..0] == [];
  }

  /**
   A similarity is half of one more than the cosine, to six places: the number that, times the two lengths, is the dot
   product. Vectors of different length have none, and with a zero vector it is 0.
   */
  lemma {:induction false} SimilarityTells(sqrt: real -> real, a: Vec, b: Vec) returns (cos: real)
    requires IsSqrt(sqrt)
    ensures |a| != |b| ==> Similarity(sqrt, a, b).None?
    ensures |a| == |b| ==>
              && Similarity(sqrt, a, b).Some?
              && if Dot(a, a) == 0.0 || Dot(b, b) == 0.0 then Similarity(sqrt, a, b).value == 0.0
                 else Product(cos, Product(sqrt(Dot(a, a)), sqrt(Dot(b, b)))) == Dot(a, b)
                      && Kept(Similarity(sqrt, a, b).value, (cos + 1.0) / 2.0, 0.000001)
  {
    cos := 0.0;
    if |a| == |b| && Dot(a, a) != 0.0 && Dot(b, b) != 0.0 {
      NormNotNegative(a);
      NormNotNegative(b);
      cos := OverRoots(sqrt, Dot(a, b), Dot(a, a), Dot(b, b));
      OverRootsTimes(sqrt, Dot(a, b), Dot(a, a), Dot(b, b));
      Round6Keeps((cos + 1.0) / 2.0);
    }
  }

  /** A vector stretched by a factor, turned round if it is negative. */
  function Stretched(a: Vec, k: real): (b: Vec)
    ensures |b| == |a|
  {
    if a == [] then [] else Stretched(a[..|a| - 1], k) + [a[|a| - 1] * k]
  }

  lemma {:induction false} DotStretched(a: Vec, b: Vec, k: real)
    requires |a| == |b|
    ensures Dot(a, Stretched(b, k)) == Dot(a, b) * k
  {
    if a != [] {
      var n := |a| - 1;
      DotStretched(a[..n], b[..n], k);
      assert Stretched(b, k)[..n] == Stretched(b[..n], k);
      Distributes(Dot(a[..n], b[..n]), a[n], b[n], k);
    }
  }

  lemma Distributes(d: real, x: real, y: real, k: real)
    ensures d * k + x * (y * k) == (d + x * y) * k
  {
  }

  lemma {:induction false} EqualSquares(x: real, y: real)
    requires x >= 0.0 && y >= 0.0 && x * x == y * y
    ensures x == y
  {
    if x < y {
      SquareLess(x, y);
    } else if y < x {
      SquareLess(y, x);
    }
  }

  lemma {:induction false} Cancels(cos: real, p: real, q: real)
    requires p != 0.0 && cos * p == q
    ensures q == p ==> cos == 1.0
    ensures q == -p ==> cos == -1.0
    ensures q == 0.0 ==> cos == 0.0
  {
    assert (cos - 1.0) * p == q - p && (cos + 1.0) * p == q + p;
    if q == p {
      NoZeroProduct(cos - 1.0, p);
    } else if q == -p {
      NoZeroProduct(cos + 1.0, p);
    } else if q == 0.0 {
      NoZeroProduct(cos, p);
    }
  }

  lemma NoZeroProduct(x: real, p: real)
    requires p != 0.0 && x * p == 0.0
    ensures x == 0.0
  {
  }

  lemma RootOfMultiple(s: real, m: real, na: real, nb: real, k: real)
    requires s * s == na && nb == na * k * k && m == (if k < 0.0 then -k else k) * s
    ensures m * m == nb && s * m == na * (if k < 0.0 then -k else k)
  {
  }

  /** The cosine between a vector and a multiple of it, from the roots of their norms. */
  lemma {:induction false} CosineOfMultiple(cos: real, s: real, t: real, na: real, nb: real, k: real)
    requires s > 0.0 && t > 0.0 && s * s == na && t * t == nb && nb == na * k * k && k != 0.0
    requires cos * (s * t) == na * k
    ensures cos == if k < 0.0 then -1.0 else 1.0
  {
    var size := if k < 0.0 then -k else k;
    var m := size * s;
    PositiveProduct(size, s);
    RootOfMultiple(s, m, na, nb, k);
    EqualSquares(t, m);
    PositiveProduct(s, m);
    Cancels(cos, s * m, na * k);
  }

  /**
   A vector is as similar as can be to every positive multiple of itself, and not at all to a negative one; and vectors
   at a right angle are half similar.
   */
  lemma {:induction false} SimilarityOfMultiples(sqrt: real -> real, a: Vec, b: Vec, k: real)
    requires IsSqrt(sqrt) && Dot(a, a) != 0.0
    ensures k > 0.0 ==> Similarity(sqrt, a, Stretched(a, k)) == Some(1.0)
    ensures k < 0.0 ==> Similarity(sqrt, a, Stretched(a, k)) == Some(0.0)
    ensures |a| == |b| && Dot(b, b) != 0.0 && Dot(a, b) == 0.0 ==> Similarity(sqrt, a, b) == Some(0.5)
  {
    NormNotNegative(a);
    if k != 0.0 {
      CosineOfStretched(sqrt, a, k);
      RoundWhole(0);
      RoundWhole(1000000);
    }
    if |a| == |b| && Dot(b, b) != 0.0 && Dot(a, b) == 0.0 {
      NormNotNegative(b);
      RootsNotZero(sqrt, Dot(a, a), Dot(b, b));
      OverRootsTimes(sqrt, 0.0, Dot(a, a), Dot(b, b));
      Cancels(Cosine(sqrt, a, b), sqrt(Dot(a, a)) * sqrt(Dot(b, b)), 0.0);
      RoundWhole(500000);
    }
  }

  lemma {:induction false} CosineOfStretched(sqrt: real -> real, a: Vec, k: real)
    requires IsSqrt(sqrt) && Dot(a, a) != 0.0 && k != 0.0
    ensures Dot(Stretched(a, k), Stretched(a, k)) != 0.0
    ensures Cosine(sqrt, a, Stretched(a, k)) == if k < 0.0 then -1.0 else 1.0
  {
    var b, na := Stretched(a, k), Dot(a, a);
    var nb := Dot(b, b);
    NormNotNegative(a);
    NormNotNegative(b);
    DotStretched(a, a, k);
    DotStretched(b, a, k);
    DotSymmetric(a, b);
    assert nb == na * k * k;
    NotZero(na, k);
    RootsNotZero(sqrt, na, nb);
    OverRootsTimes(sqrt, Dot(a, b), na, nb);
    CosineOfMultiple(Cosine(sqrt, a, b), sqrt(na), sqrt(nb), na, nb, k);
  }

  lemma NotZero(na: real, k: real)
    requires na > 0.0 && k != 0.0
    ensures na * k * k != 0.0
  {
    if na * k * k == 0.0 {
      NoZeroProduct(na * k, k);
      NoZeroProduct(na, k);
    }
  }

  // ---------- what a query returns ----------

  predicate SameTenant(q: VectorQuery, r: StoredIntent) { q.tenantId.Some? ==> r.tenantId == q.tenantId }

  /** More similar, or as similar with the earlier id. */
  predicate Nearer(a: VectorMatch, b: VectorMatch) {
    if a.similarity == b.similarity then StrLess(a.record.id, b.record.id) else a.similarity > b.similarity
  }

  /** A record of the query's tenant with its own similarity. */
  ghost predicate IsMatch(sqrt: real -> real, q: VectorQuery, records: seq<StoredIntent>, m: VectorMatch)
    requires IsSqrt(sqrt)
  {
    m.record in records && SameTenant(q, m.record) && Similarity(sqrt, q.vector, m.record.vector) == Some(m.similarity)
  }

  /** The records of the query's tenant, by position. */
  function TenantsOwn(q: VectorQuery, records: seq<StoredIntent>): set<int> {
    set i | 0 <= i < |records| && SameTenant(q, records[i])
  }

  lemma {:induction false} OwnCount(sqrt: real -> real, q: VectorQuery, records: seq<StoredIntent>)
    requires IsSqrt(sqrt) && Comparable(q, records)
    ensures |Scored(sqrt, q, records)| == |TenantsOwn(q, records)|
  {
    if records != [] {
      var n := |records| - 1;
      var before := TenantsOwn(q, records[..n]);
      OwnCount(sqrt, q, records[..n]);
      assert TenantsOwn(q, records) == if SameTenant(q, records[n]) then before + {n} else before;
    }
  }

  lemma {:induction false} ScoredOnce(sqrt: real -> real, q: VectorQuery, records: seq<StoredIntent>, m: VectorMatch)
    requires IsSqrt(sqrt) && Comparable(q, records) && DistinctIds(records)
    ensures multiset(Scored(sqrt, q, records))[m] <= 1
  {
    if records != [] {
      var n := |records| - 1;
      ScoredOnce(sqrt, q, records[..n], m);
      ScoredFrom(sqrt, q, records[..n], m);
      if m.record == records[n] {
        assert forall i | 0 <= i < n :: records[i].id != records[n].id;
        assert m !in Scored(sqrt, q, records[..n]);
      }
    }
  }

  lemma {:induction false} ComparableMeans(q: VectorQuery, records: seq<StoredIntent>)
    ensures Comparable(q, records) <==>
            forall r | r in records && SameTenant(q, r) :: |r.vector| == |q.vector|
  {
    if Comparable(q, records) {
      forall r | r in records && SameTenant(q, r) ensures |r.vector| == |q.vector| {
        var i :| 0 <= i < |records| && records[i] == r;
        assert InScope(q, records[i]);
      }
    } else {
      var i :| 0 <= i < |records| && InScope(q, records[i]) && |records[i].vector| != |q.vector|;
      assert records[i] in records && SameTenant(q, records[i]);
    }
  }

  /** The matches a query returns stand strictly in order: none is repeated. */
  lemma {:induction false} TopIsStrict(sqrt: real -> real, q: VectorQuery, records: seq<StoredIntent>, i: nat, j: nat)
    requires IsSqrt(sqrt) && Comparable(q, records) && DistinctIds(records) && i < j < |TopK(sqrt, q, records)|
    ensures Nearer(TopK(sqrt, q, records)[i], TopK(sqrt, q, records)[j])
  {
    var found, top := Scored(sqrt, q, records), TopK(sqrt, q, records);
    var sorted := Sort(Before(), found);
    SortPermutes(Before(), found);
    ScoredOnce(sqrt, q, records, sorted[i]);
    if sorted[i] == sorted[j] {
      TwiceInside(sorted, i, j);
    }
    SameMembers(sorted, found, sorted[i]);
    SameMembers(sorted, found, sorted[j]);
    BeforeIsTotal(sqrt, q, records);
    QueryIsTopK(sqrt, q, records, sorted[i]);
    assert !Before()(top[j], top[i]);
  }

  /**
   A query is refused if and only if some record of its tenant has a vector of another length. Otherwise it returns the
   k nearest of them, or all when there are fewer, each once with its own similarity, nearest first; whatever it leaves
   out is farther than all it returns.
   */
  lemma {:induction false} QueryTells(sqrt: real -> real, q: VectorQuery, records: seq<StoredIntent>, m: VectorMatch)
    requires IsSqrt(sqrt) && DistinctIds(records)
    ensures Comparable(q, records) <==>
            forall r | r in records && SameTenant(q, r) :: |r.vector| == |q.vector|
    ensures Comparable(q, records) ==>
              var top, n := TopK(sqrt, q, records), |TenantsOwn(q, records)|;
              && |top| == (if q.k < 0 then 0 else if q.k < n then q.k else n)
              && (forall i, j | 0 <= i < j < |top| :: Nearer(top[i], top[j]))
              && (m in top ==> IsMatch(sqrt, q, records, m))
              && (IsMatch(sqrt, q, records, m) && m !in top ==> forall t | t in top :: Nearer(t, m))
  {
    ComparableMeans(q, records);
    if Comparable(q, records) {
      var top := TopK(sqrt, q, records);
      OwnCount(sqrt, q, records);
      SortPermutes(Before(), Scored(sqrt, q, records));
      QueryIsTopK(sqrt, q, records, m);
      ScoredFrom(sqrt, q, records, m);
      forall i, j | 0 <= i < j < |top| ensures Nearer(top[i], top[j]) {
        TopIsStrict(sqrt, q, records, i, j);
      }
    }
  }
}
