/** Vector recall: cosine similarity and exact tenant-filtered top-k. */
module Recall {
  import opened Text
  import opened Money
  import opened Order

  type Vec = seq<real>

  datatype StoredIntent = StoredIntent(id: string, text: string, vector: Vec, tenantId: Option<string>, createdAt: int)

  datatype VectorQuery = VectorQuery(vector: Vec, k: int, tenantId: Option<string>)

  datatype VectorMatch = VectorMatch(record: StoredIntent, similarity: real)

  /** `Math.sqrt` over the reals. */
  ghost predicate IsSqrt(sqrt: real -> real) {
    forall x | x >= 0.0 :: sqrt(x) >= 0.0 && sqrt(x) * sqrt(x) == x
  }

  function Dot(a: Vec, b: Vec): real
    requires |a| == |b|
  {
    if a == [] then 0.0
    else Dot(a[..|a| - 1], b[..|b| - 1]) + a[|a| - 1] * b[|b| - 1]
  }

  lemma {:induction false} NormNotNegative(a: Vec)
    ensures Dot(a, a) >= 0.0
  {
    if a != [] {
      NormNotNegative(a[..|a| - 1]);
    }
  }

  lemma {:induction false} RootsNotZero(sqrt: real -> real, x: real, y: real)
    requires IsSqrt(sqrt) && x > 0.0 && y > 0.0
    ensures sqrt(x) > 0.0 && sqrt(y) > 0.0 && sqrt(x) * sqrt(y) > 0.0
  {
    assert sqrt(x) * sqrt(x) == x && sqrt(y) * sqrt(y) == y;
  }

  /** A dot product over the roots of two squared norms. */
  function OverRoots(sqrt: real -> real, dot: real, na: real, nb: real): real
    requires IsSqrt(sqrt) && na > 0.0 && nb > 0.0
  {
    RootsNotZero(sqrt, na, nb);
    dot / (sqrt(na) * sqrt(nb))
  }

  /** The cosine of two vectors of non-zero norm, before it is mapped to 0..1. */
  function Cosine(sqrt: real -> real, a: Vec, b: Vec): real
    requires IsSqrt(sqrt) && |a| == |b| && Dot(a, a) != 0.0 && Dot(b, b) != 0.0
  {
    NormNotNegative(a);
    NormNotNegative(b);
    OverRoots(sqrt, Dot(a, b), Dot(a, a), Dot(b, b))
  }

  /** `cosineSimilarity`: none for vectors of different length, 0 when one is zero, else mapped to 0..1. */
  function Similarity(sqrt: real -> real, a: Vec, b: Vec): Option<real>
    requires IsSqrt(sqrt)
  {
    if |a| != |b| then None
    else if Dot(a, a) == 0.0 || Dot(b, b) == 0.0 then Some(0.0)
    else Some(Round6((Cosine(sqrt, a, b) + 1.0) / 2.0))
  }

  lemma {:induction false} DotStep(a: Vec, b: Vec, i: nat)
    requires |a| == |b| && i < |a|
    ensures Dot(a[..i + 1], b[..i + 1]) == Dot(a[..i], b[..i]) + a[i] * b[i]
  {
    assert a[..i + 1][..i] == a[..i] && b[..i + 1][..i] == b[..i];
  }

  method CosineSimilarity(sqrt: real -> real, a: Vec, b: Vec) returns (r: Option<real>)
    requires IsSqrt(sqrt)
    ensures r == Similarity(sqrt, a, b)
  {
    if |a| != |b| {
      return None;
    }
    var dot, na, nb := 0.0, 0.0, 0.0;
    var i := 0;
    while i < |a|
      invariant 0 <= i <= |a|
      invariant dot == Dot(a[..i], b[..i]) && na == Dot(a[..i], a[..i]) && nb == Dot(b[..i], b[..i])
    {
      dot := dot + a[i] * b[i];
      na := na + a[i] * a[i];
      nb := nb + b[i] * b[i];
      DotStep(a, b, i);
      DotStep(a, a, i);
      DotStep(b, b, i);
      i := i + 1;
    }
    assert a[..i] == a && b[..i] == b;
    if na == 0.0 || nb == 0.0 {
      return Some(0.0);
    }
    NormNotNegative(a);
    NormNotNegative(b);
    RootsNotZero(sqrt, na, nb);
    var cos := dot / (sqrt(na) * sqrt(nb));
    assert cos == OverRoots(sqrt, dot, na, nb);
    r := Some(Round6((cos + 1.0) / 2.0));
  }

  // ---------- Cauchy-Schwarz ----------

  lemma {:induction false} Square(x: real)
    ensures x * x >= 0.0
  {
  }

  lemma {:induction false} NonzeroSquare(x: real)
    requires x != 0.0
    ensures x * x > 0.0
  {
    if x > 0.0 {
      PositiveProduct(x, x);
    } else {
      NegativeSquare(x, -x);
    }
  }

  lemma {:induction false} NegativeSquare(x: real, z: real)
    requires z == -x && z > 0.0
    ensures x * x > 0.0
  {
    PositiveProduct(z, z);
    SameSquare(x, z);
  }

  lemma {:induction false} SameSquare(x: real, z: real)
    requires z == -x
    ensures z * z == x * x
  {
  }

  /** (p - r)² written out, and with p = A y, r = d x. */
  lemma {:induction false} CompleteSquare(d: real, A: real, B: real, x: real, y: real)
    ensures A * (A * (y * y) + B * (x * x) - 2.0 * (d * (x * y)))
         == (A * y - d * x) * (A * y - d * x) + (A * B - d * d) * (x * x)
  {
    var p, r := A * y, d * x;
    assert (p - r) * (p - r) == p * p - 2.0 * (p * r) + r * r;
    assert p * p == A * (A * (y * y));
    assert r * r == (d * d) * (x * x);
    assert p * r == A * (d * (x * y));
    assert (A * B - d * d) * (x * x) == A * (B * (x * x)) - (d * d) * (x * x);
  }

  /** If d² <= AB with A, B >= 0 then A y² + B x² >= 2 d x y. */
  lemma {:induction false} QuadraticForm(d: real, A: real, B: real, x: real, y: real)
    requires A >= 0.0 && B >= 0.0 && d * d <= A * B
    ensures A * (y * y) + B * (x * x) - 2.0 * (d * (x * y)) >= 0.0
  {
    var q := A * (y * y) + B * (x * x) - 2.0 * (d * (x * y));
    Square(x);
    if A == 0.0 {
      if d != 0.0 {
        NonzeroSquare(d);
      }
      NonNegativeProduct(B, x * x);
    } else {
      CompleteSquare(d, A, B, x, y);
      Square(A * y - d * x);
      NonNegativeProduct(A * B - d * d, x * x);
      assert A * q >= 0.0;
      if q < 0.0 {
        PositiveProduct(A, -q);
      }
    }
  }

  lemma {:induction false} ExpandProducts(d: real, A: real, B: real, x: real, y: real)
    ensures (A + x * x) * (B + y * y) - (d + x * y) * (d + x * y)
         == (A * B - d * d) + (A * (y * y) + B * (x * x) - 2.0 * (d * (x * y)))
  {
    var u, v, w := x * x, y * y, x * y;
    assert (A + u) * (B + v) == A * B + A * v + u * B + u * v;
    assert (d + w) * (d + w) == d * d + 2.0 * (d * w) + w * w;
    assert u * v == w * w;
  }

  lemma {:induction false} CauchySchwarz(a: Vec, b: Vec)
    requires |a| == |b|
    ensures Dot(a, b) * Dot(a, b) <= Dot(a, a) * Dot(b, b)
  {
    if a != [] {
      var n := |a| - 1;
      var x, y := a[n], b[n];
      var d, A, B := Dot(a[..n], b[..n]), Dot(a[..n], a[..n]), Dot(b[..n], b[..n]);
      CauchySchwarz(a[..n], b[..n]);
      NormNotNegative(a[..n]);
      NormNotNegative(b[..n]);
      QuadraticForm(d, A, B, x, y);
      ExpandProducts(d, A, B, x, y);
    }
  }

  lemma {:induction false} ScaledLess(a: real, b: real, c: real)
    requires a < b && c > 0.0
    ensures a * c < b * c
  {
    PositiveProduct(b - a, c);
    assert (b - a) * c == b * c - a * c;
  }

  lemma {:induction false} ProductLess(a: real, b: real, c: real, d: real)
    requires 0.0 <= a < b && 0.0 <= c < d
    ensures a * c < b * d
  {
    ProductMonotone(a, b, c, c);
    ScaledLess(c, d, b);
    assert c * b == b * c && d * b == b * d;
  }

  lemma {:induction false} SquareLess(y: real, x: real)
    requires 0.0 <= y < x
    ensures y * y < x * x
  {
    ProductLess(y, x, y, x);
  }

  lemma {:induction false} SquareOrder(x: real, y: real)
    requires y >= 0.0 && x * x <= y * y
    ensures -y <= x <= y
  {
    var z := -x;
    assert z * z == x * x;
    if x > y {
      SquareLess(y, x);
    } else if z > y {
      SquareLess(y, z);
    }
  }

  lemma {:induction false} QuotientBound(d: real, q: real, r: real)
    requires r > 0.0 && -r <= d <= r && q * r == d
    ensures -1.0 <= q <= 1.0
  {
    assert (q - 1.0) * r == d - r && (-1.0 - q) * r == -r - d;
    if q > 1.0 {
      PositiveProduct(q - 1.0, r);
    } else if q < -1.0 {
      PositiveProduct(-1.0 - q, r);
    }
  }

  lemma {:induction false} ProductOfSquares(s: real, t: real)
    ensures (s * t) * (s * t) == (s * s) * (t * t)
  {
  }

  /** A quotient by the product of two roots, on plain numbers. */
  lemma {:induction false} QuotientByRoots(q: real, dot: real, s: real, t: real, na: real, nb: real)
    requires s > 0.0 && t > 0.0 && s * s == na && t * t == nb && dot * dot <= na * nb
    requires q * (s * t) == dot
    ensures -1.0 <= q <= 1.0
  {
    var r := s * t;
    PositiveProduct(s, t);
    ProductOfSquares(s, t);
    SquareOrder(dot, r);
    QuotientBound(dot, q, r);
  }

  lemma {:induction false} OverRootsTimes(sqrt: real -> real, dot: real, na: real, nb: real)
    requires IsSqrt(sqrt) && na > 0.0 && nb > 0.0
    ensures OverRoots(sqrt, dot, na, nb) * (sqrt(na) * sqrt(nb)) == dot
  {
    RootsNotZero(sqrt, na, nb);
    DividedBack(dot, sqrt(na) * sqrt(nb));
  }

  lemma {:induction false} DividedBack(d: real, r: real)
    requires r != 0.0
    ensures d / r * r == d
  {
  }

  lemma {:induction false} OverRootsBounded(sqrt: real -> real, dot: real, na: real, nb: real)
    requires IsSqrt(sqrt) && na > 0.0 && nb > 0.0 && dot * dot <= na * nb
    ensures -1.0 <= OverRoots(sqrt, dot, na, nb) <= 1.0
  {
    RootsNotZero(sqrt, na, nb);
    OverRootsTimes(sqrt, dot, na, nb);
    QuotientByRoots(OverRoots(sqrt, dot, na, nb), dot, sqrt(na), sqrt(nb), na, nb);
  }

  lemma {:induction false} OverRootsLaws(sqrt: real -> real, dot: real, na: real, nb: real)
    requires IsSqrt(sqrt) && na > 0.0 && nb > 0.0
    ensures OverRoots(sqrt, dot, na, nb) == OverRoots(sqrt, dot, nb, na) && OverRoots(sqrt, na, na, na) == 1.0
  {
    RootsNotZero(sqrt, na, nb);
    RootsNotZero(sqrt, nb, na);
    RootsNotZero(sqrt, na, na);
    var r := sqrt(na) * sqrt(nb);
    assert r == sqrt(nb) * sqrt(na);
    assert sqrt(na) * sqrt(na) == na;
    assert na / na == 1.0;
  }

  /** The cosine of any two vectors lies in -1..1. */
  lemma {:induction false} CosineBounded(sqrt: real -> real, a: Vec, b: Vec)
    requires IsSqrt(sqrt) && |a| == |b| && Dot(a, a) != 0.0 && Dot(b, b) != 0.0
    ensures -1.0 <= Cosine(sqrt, a, b) <= 1.0
  {
    NormNotNegative(a);
    NormNotNegative(b);
    CauchySchwarz(a, b);
    OverRootsBounded(sqrt, Dot(a, b), Dot(a, a), Dot(b, b));
  }

  lemma {:induction false} Round6Unit(x: real)
    requires 0.0 <= x <= 1.0
    ensures 0.0 <= Round6(x) <= 1.0
  {
    RoundWhole(0);
    RoundWhole(1000000);
    RoundMonotone(0.0, x * 1000000.0);
    RoundMonotone(x * 1000000.0, 1000000.0);
  }

  /** Similarity is always in 0..1, for vectors of any length. */
  lemma {:induction false} SimilarityInUnit(sqrt: real -> real, a: Vec, b: Vec)
    requires IsSqrt(sqrt) && |a| == |b|
    ensures Similarity(sqrt, a, b).Some? && 0.0 <= Similarity(sqrt, a, b).value <= 1.0
  {
    if Dot(a, a) != 0.0 && Dot(b, b) != 0.0 {
      CosineBounded(sqrt, a, b);
      Round6Unit((Cosine(sqrt, a, b) + 1.0) / 2.0);
    }
  }

  lemma {:induction false} DotSymmetric(a: Vec, b: Vec)
    requires |a| == |b|
    ensures Dot(a, b) == Dot(b, a)
  {
    if a != [] {
      DotSymmetric(a[..|a| - 1], b[..|b| - 1]);
    }
  }

  /** Similarity is symmetric, and a non-zero vector has similarity 1 with itself, the largest there is. */
  lemma {:induction false} SimilarityLaws(sqrt: real -> real, a: Vec, b: Vec)
    requires IsSqrt(sqrt)
    ensures |a| == |b| ==> Similarity(sqrt, a, b) == Similarity(sqrt, b, a)
    ensures Similarity(sqrt, a, a) == Some(if Dot(a, a) == 0.0 then 0.0 else 1.0)
  {
    NormNotNegative(a);
    if |a| == |b| {
      DotSymmetric(a, b);
      NormNotNegative(b);
      if Dot(a, a) != 0.0 && Dot(b, b) != 0.0 {
        OverRootsLaws(sqrt, Dot(a, b), Dot(a, a), Dot(b, b));
      }
    }
    if Dot(a, a) != 0.0 {
      OverRootsLaws(sqrt, Dot(a, a), Dot(a, a), Dot(a, a));
      RoundWhole(1000000);
    }
  }

  // ---------- the store ----------

  predicate InScope(q: VectorQuery, r: StoredIntent) { q.tenantId.None? || r.tenantId == q.tenantId }

  /** No record in scope has a vector of another length: otherwise the query throws. */
  predicate Comparable(q: VectorQuery, records: seq<StoredIntent>) {
    forall i | 0 <= i < |records| && InScope(q, records[i]) :: |records[i].vector| == |q.vector|
  }

  /** The records in scope with their similarity, in insertion order. */
  function Scored(sqrt: real -> real, q: VectorQuery, records: seq<StoredIntent>): seq<VectorMatch>
    requires IsSqrt(sqrt) && Comparable(q, records)
  {
    if records == [] then []
    else
      var r := records[|records| - 1];
      Scored(sqrt, q, records[..|records| - 1])
      + (if InScope(q, r) then [VectorMatch(r, Similarity(sqrt, q.vector, r.vector).value)] else [])
  }

  lemma {:induction false} OneMoreScored(sqrt: real -> real, q: VectorQuery, records: seq<StoredIntent>, i: nat)
    requires IsSqrt(sqrt) && i < |records| && Comparable(q, records[..i])
    ensures Comparable(q, records[..i + 1]) <==>
            (InScope(q, records[i]) ==> |records[i].vector| == |q.vector|)
    ensures Comparable(q, records[..i + 1]) ==>
              Scored(sqrt, q, records[..i + 1])
              == Scored(sqrt, q, records[..i])
                 + (if InScope(q, records[i])
                    then [VectorMatch(records[i], Similarity(sqrt, q.vector, records[i].vector).value)] else [])
  {
    assert records[..i + 1][..i] == records[..i] && records[..i + 1][i] == records[i];
  }

  /** More similar first; equal similarities by id. */
  function Before(): (VectorMatch, VectorMatch) -> bool {
    (a: VectorMatch, b: VectorMatch) =>
      a.similarity > b.similarity || (a.similarity == b.similarity && StrLess(a.record.id, b.record.id))
  }

  function TopK(sqrt: real -> real, q: VectorQuery, records: seq<StoredIntent>): seq<VectorMatch>
    requires IsSqrt(sqrt) && Comparable(q, records)
  {
    Slice(Sort(Before(), Scored(sqrt, q, records)), if q.k < 0 then 0 else q.k)
  }

  predicate DistinctIds(records: seq<StoredIntent>) {
    forall i, j | 0 <= i < j < |records| :: records[i].id != records[j].id
  }

  class InMemoryVectorStore {
    var records: seq<StoredIntent>

    ghost predicate Valid()
      reads this
    {
      DistinctIds(records)
    }

    constructor ()
      ensures Valid() && records == []
    {
      records := [];
    }

    /** Replace the record with this id where it stands, or add it at the end. */
    method Upsert(r: StoredIntent)
      requires Valid()
      modifies this
      ensures Valid()
      ensures if i :| 0 <= i < |old(records)| && old(records)[i].id == r.id
              then records == old(records)[i := r]
              else records == old(records) + [r]
    {
      var i := 0;
      while i < |records|
        invariant 0 <= i <= |records|
        invariant forall j | 0 <= j < i :: records[j].id != r.id
      {
        if records[i].id == r.id {
          records := records[i := r];
          return;
        }
        i := i + 1;
      }
      records := records + [r];
    }

    /** None when a record in scope cannot be compared. */
    method Query(sqrt: real -> real, q: VectorQuery) returns (matches: Option<seq<VectorMatch>>)
      requires IsSqrt(sqrt) && Valid()
      ensures matches == if Comparable(q, records) then Some(TopK(sqrt, q, records)) else None
    {
      var found: seq<VectorMatch> := [];
      var i := 0;
      while i < |records|
        invariant 0 <= i <= |records|
        invariant Comparable(q, records[..i]) && found == Scored(sqrt, q, records[..i])
      {
        var r := records[i];
        OneMoreScored(sqrt, q, records, i);
        if InScope(q, r) {
          var s := CosineSimilarity(sqrt, q.vector, r.vector);
          if s.None? {
            return None;
          }
          found := found + [VectorMatch(r, s.value)];
        }
        i := i + 1;
      }
      assert records[..i] == records;
      matches := Some(Slice(Sort(Before(), found), if q.k < 0 then 0 else q.k));
    }
  }

  // ---------- what a query returns ----------

  lemma {:induction false} ScoredFrom(sqrt: real -> real, q: VectorQuery, records: seq<StoredIntent>, m: VectorMatch)
    requires IsSqrt(sqrt) && Comparable(q, records)
    ensures m in Scored(sqrt, q, records) <==>
            m.record in records && InScope(q, m.record)
                && Similarity(sqrt, q.vector, m.record.vector) == Some(m.similarity)
  {
    if records != [] {
      var n := |records| - 1;
      ScoredFrom(sqrt, q, records[..n], m);
      assert records == records[..n] + [records[n]];
    }
  }

  lemma {:induction false} BeforeIsTotal(sqrt: real -> real, q: VectorQuery, records: seq<StoredIntent>)
    requires IsSqrt(sqrt) && Comparable(q, records) && DistinctIds(records)
    ensures StrictTotal(Before(), set m | m in Scored(sqrt, q, records))
  {
    var all := set m | m in Scored(sqrt, q, records);
    var less := Before();
    forall a | a in all ensures !less(a, a) {
      StrLessIrreflexive(a.record.id);
    }
    forall a, b, c | a in all && b in all && c in all && less(a, b) && less(b, c) ensures less(a, c) {
      if a.similarity == b.similarity == c.similarity {
        StrLessTransitive(a.record.id, b.record.id, c.record.id);
      }
    }
    forall a, b | a in all && b in all ensures a == b || less(a, b) || less(b, a) {
      StrLessTotal(a.record.id, b.record.id);
      ScoredFrom(sqrt, q, records, a);
      ScoredFrom(sqrt, q, records, b);
    }
  }

  /**
   The exact top-k: every match returned is a record in scope with its similarity; the list is in order; and
   any record in scope that is left out comes after every one returned, of which there are then exactly k.
   */
  lemma {:induction false} QueryIsTopK(sqrt: real -> real, q: VectorQuery, records: seq<StoredIntent>, m: VectorMatch)
    requires IsSqrt(sqrt) && Comparable(q, records) && DistinctIds(records)
    ensures var top := TopK(sqrt, q, records); var less := Before();
            && Sorted(less, top)
            && (m in top ==> m in Scored(sqrt, q, records))
            && (m in Scored(sqrt, q, records) && m !in top ==>
                  |top| == (if q.k < 0 then 0 else q.k) && forall t | t in top :: less(t, m))
  {
    var found := Scored(sqrt, q, records);
    var all := set x | x in found;
    BeforeIsTotal(sqrt, q, records);
    BestAreTaken(Before(), all, found, if q.k < 0 then 0 else q.k, m);
    if m in found && m !in TopK(sqrt, q, records) {
      SortPermutes(Before(), found);
      SameMembers(Sort(Before(), found), found, m);
    }
  }

  lemma {:induction false} ScoredSplit(sqrt: real -> real, q: VectorQuery, a: seq<StoredIntent>, b: seq<StoredIntent>)
    requires IsSqrt(sqrt) && Comparable(q, a + b)
    ensures Comparable(q, a) && Comparable(q, b)
    ensures Scored(sqrt, q, a + b) == Scored(sqrt, q, a) + Scored(sqrt, q, b)
  {
    assert forall i | 0 <= i < |a| :: (a + b)[i] == a[i];
    assert forall i | 0 <= i < |b| :: (a + b)[|a| + i] == b[i];
    if b == [] {
      assert a + b == a;
    } else {
      var n := |b| - 1;
      assert (a + b)[..|a + b| - 1] == a + b[..n];
      ScoredSplit(sqrt, q, a, b[..n]);
    }
  }

  lemma {:induction false} WithoutOne<T>(front: seq<T>, x: T, before: seq<T>, after: seq<T>)
    requires multiset(front + [x]) == multiset(before + ([x] + after))
    ensures multiset(front) == multiset(before + after)
  {
    assert multiset(front + [x]) - multiset{x} == multiset(front);
    assert multiset(before + ([x] + after)) - multiset{x} == multiset(before + after);
  }

  lemma {:induction false} ScoredIgnoresOrder(sqrt: real -> real, q: VectorQuery, a: seq<StoredIntent>,
                                              b: seq<StoredIntent>)
    requires IsSqrt(sqrt) && Comparable(q, a) && Comparable(q, b) && multiset(a) == multiset(b)
    ensures multiset(Scored(sqrt, q, a)) == multiset(Scored(sqrt, q, b))
    decreases |a|
  {
    assert |a| == |multiset(a)| == |multiset(b)| == |b|;
    if a != [] {
      var n := |a| - 1;
      var x, front := a[n], a[..n];
      SameMembers(a, b, x);
      assert a[n] in a;
      var i :| 0 <= i < |b| && b[i] == x;
      var before, after := b[..i], b[i + 1..];
      assert a == front + [x] && b == before + ([x] + after);
      WithoutOne(front, x, before, after);
      AppendNothing(front, x);
      ScoredMiddle(sqrt, q, front, x, []);
      ScoredMiddle(sqrt, q, before, x, after);
      ScoredIgnoresOrder(sqrt, q, front, before + after);
    }
  }

  lemma {:induction false} AppendNothing<T>(s: seq<T>, x: T)
    ensures s + ([x] + []) == s + [x] && s + [] == s
  {
  }

  lemma {:induction false} ScoredMiddle(sqrt: real -> real, q: VectorQuery, before: seq<StoredIntent>, x: StoredIntent,
                                        after: seq<StoredIntent>)
    requires IsSqrt(sqrt) && Comparable(q, before + ([x] + after))
    ensures Comparable(q, before + after) && Comparable(q, [x])
    ensures multiset(Scored(sqrt, q, before + ([x] + after)))
         == multiset(Scored(sqrt, q, before + after)) + multiset(Scored(sqrt, q, [x]))
  {
    ScoredSplit(sqrt, q, before, [x] + after);
    ScoredSplit(sqrt, q, [x], after);
    assert Comparable(q, before + after);
    ScoredSplit(sqrt, q, before, after);
  }

  /** The answer to a query depends on which records are stored, not on the order they arrived in. */
  lemma {:induction false} QueryIgnoresOrder(sqrt: real -> real, q: VectorQuery, a: seq<StoredIntent>,
                                             b: seq<StoredIntent>)
    requires IsSqrt(sqrt) && DistinctIds(a) && multiset(a) == multiset(b)
    ensures Comparable(q, a) <==> Comparable(q, b)
    ensures Comparable(q, a) ==> TopK(sqrt, q, a) == TopK(sqrt, q, b)
  {
    if Comparable(q, b) {
      ComparableIgnoresOrder(q, b, a);
    }
    if Comparable(q, a) {
      ComparableIgnoresOrder(q, a, b);
      ScoredIgnoresOrder(sqrt, q, a, b);
      BeforeIsTotal(sqrt, q, a);
      var found := Scored(sqrt, q, a);
      var all := set m | m in found;
      SortIgnoresOrder(Before(), all, found, Scored(sqrt, q, b));
    }
  }

  lemma {:induction false} ComparableIgnoresOrder(q: VectorQuery, a: seq<StoredIntent>, b: seq<StoredIntent>)
    requires multiset(a) == multiset(b) && Comparable(q, a)
    ensures Comparable(q, b)
  {
    forall i | 0 <= i < |b| && InScope(q, b[i]) ensures |b[i].vector| == |q.vector| {
      assert b[i] in b;
      SameMembers(a, b, b[i]);
    }
  }
}
