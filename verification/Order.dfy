/** Sorting by a strict total order, and why the sorted list is the only one there is. */
module Order {

  /** A comparison that orders the elements of `s` strictly and totally. */
  ghost predicate StrictTotal<T>(less: (T, T) -> bool, s: set<T>) {
    && (forall a | a in s :: !less(a, a))
    && (forall a, b, c | a in s && b in s && c in s && less(a, b) && less(b, c) :: less(a, c))
    && (forall a, b | a in s && b in s :: a == b || less(a, b) || less(b, a))
  }

  predicate Sorted<T>(less: (T, T) -> bool, s: seq<T>) {
    forall i, j | 0 <= i < j < |s| :: !less(s[j], s[i])
  }

  function Insert<T>(less: (T, T) -> bool, x: T, s: seq<T>): seq<T> {
    if s == [] || less(x, s[0]) then [x] + s else [s[0]] + Insert(less, x, s[1..])
  }

  /** Insertion sort; it stands for `Array.prototype.sort`, whose result it shares (see SortUnique). */
  function Sort<T>(less: (T, T) -> bool, s: seq<T>): seq<T> {
    if s == [] then [] else Insert(less, s[0], Sort(less, s[1..]))
  }

  lemma {:induction false} InsertPermutes<T>(less: (T, T) -> bool, x: T, s: seq<T>)
    ensures multiset(Insert(less, x, s)) == multiset{x} + multiset(s)
    ensures |Insert(less, x, s)| == |s| + 1
  {
    if !(s == [] || less(x, s[0])) {
      InsertPermutes(less, x, s[1..]);
      assert s == [s[0]] + s[1..];
    }
  }

  lemma {:induction false} SortPermutes<T>(less: (T, T) -> bool, s: seq<T>)
    ensures multiset(Sort(less, s)) == multiset(s) && |Sort(less, s)| == |s|
  {
    if s != [] {
      SortPermutes(less, s[1..]);
      InsertPermutes(less, s[0], Sort(less, s[1..]));
      assert s == [s[0]] + s[1..];
    }
  }

  lemma {:induction false} SameMembers<T>(a: seq<T>, b: seq<T>, x: T)
    requires multiset(a) == multiset(b)
    ensures x in a <==> x in b
  {
    assert x in a <==> x in multiset(a);
    assert x in b <==> x in multiset(b);
  }

  lemma {:induction false} InsertSorted<T>(less: (T, T) -> bool, all: set<T>, x: T, s: seq<T>)
    requires StrictTotal(less, all) && x in all && (forall y | y in s :: y in all)
    requires Sorted(less, s)
    ensures Sorted(less, Insert(less, x, s))
  {
    if s != [] && !less(x, s[0]) {
      InsertSorted(less, all, x, s[1..]);
      InsertPermutes(less, x, s[1..]);
      var tail := Insert(less, x, s[1..]);
      forall j | 0 <= j < |tail| ensures !less(tail[j], s[0]) {
        SameMembers(tail, [x] + s[1..], tail[j]);
      }
    } else if s != [] {
      forall j | 0 <= j < |s| ensures !less(s[j], x) {
        assert s[j] in all && s[0] in all;
        assert j > 0 ==> !less(s[j], s[0]);
      }
    }
  }

  lemma {:induction false} SortSorts<T>(less: (T, T) -> bool, all: set<T>, s: seq<T>)
    requires StrictTotal(less, all) && forall y | y in s :: y in all
    ensures Sorted(less, Sort(less, s))
  {
    if s != [] {
      SortSorts(less, all, s[1..]);
      SortPermutes(less, s[1..]);
      forall y | y in Sort(less, s[1..]) ensures y in all {
        SameMembers(Sort(less, s[1..]), s[1..], y);
      }
      InsertSorted(less, all, s[0], Sort(less, s[1..]));
    }
  }

  lemma {:induction false} HeadIsLeast<T>(less: (T, T) -> bool, all: set<T>, s: seq<T>, x: T)
    requires StrictTotal(less, all) && Sorted(less, s) && x in s && x in all
    ensures !less(x, s[0])
  {
    var i :| 0 <= i < |s| && s[i] == x;
    if i == 0 {
      assert !less(x, x);
    }
  }

  lemma {:induction false} DropHead<T>(a: seq<T>)
    requires a != []
    ensures multiset(a[1..]) == multiset(a) - multiset{a[0]}
  {
    assert a == [a[0]] + a[1..];
  }

  lemma {:induction false} SameLength<T>(a: seq<T>, b: seq<T>)
    requires multiset(a) == multiset(b)
    ensures |a| == |b|
  {
    assert |a| == |multiset(a)| == |multiset(b)| == |b|;
  }

  lemma {:induction false} SameTail<T>(a: seq<T>, b: seq<T>)
    requires a != [] && b != [] && a[0] == b[0] && multiset(a) == multiset(b)
    ensures multiset(a[1..]) == multiset(b[1..])
  {
    DropHead(a);
    DropHead(b);
  }

  lemma {:induction false} Rejoin<T>(a: seq<T>, b: seq<T>)
    requires a != [] && b != [] && a[0] == b[0] && a[1..] == b[1..]
    ensures a == b
  {
    assert a == [a[0]] + a[1..] && b == [b[0]] + b[1..];
  }

  lemma {:induction false} TailSorted<T>(less: (T, T) -> bool, a: seq<T>)
    requires a != [] && Sorted(less, a)
    ensures Sorted(less, a[1..]) && forall y | y in a[1..] :: y in a
  {
  }

  lemma {:induction false} SameHead<T>(less: (T, T) -> bool, all: set<T>, a: seq<T>, b: seq<T>)
    requires StrictTotal(less, all) && forall y | y in a :: y in all
    requires Sorted(less, a) && Sorted(less, b) && multiset(a) == multiset(b) && a != [] && b != []
    ensures a[0] == b[0]
  {
    SameMembers(a, b, a[0]);
    SameMembers(a, b, b[0]);
    HeadIsLeast(less, all, a, b[0]);
    HeadIsLeast(less, all, b, a[0]);
  }

  /** There is one sorted arrangement: any two sorted lists with the same elements are equal. */
  lemma {:induction false} SortUnique<T>(less: (T, T) -> bool, all: set<T>, a: seq<T>, b: seq<T>)
    requires StrictTotal(less, all) && forall y | y in a :: y in all
    requires Sorted(less, a) && Sorted(less, b) && multiset(a) == multiset(b)
    ensures a == b
    decreases |a|
  {
    SameLength(a, b);
    if a != [] {
      SameHead(less, all, a, b);
      SameTail(a, b);
      TailSorted(less, a);
      TailSorted(less, b);
      SortUnique(less, all, a[1..], b[1..]);
      Rejoin(a, b);
    }
  }

  lemma {:induction false} TwiceInside<T>(s: seq<T>, i: nat, j: nat)
    requires i < j < |s| && s[i] == s[j]
    ensures multiset(s)[s[i]] >= 2
  {
    assert s == s[..j] + s[j..];
    assert s[..j][i] in s[..j] && s[j..][0] in s[j..];
    assert multiset(s) == multiset(s[..j]) + multiset(s[j..]);
  }

  /** The sorted form does not depend on the order the elements came in. */
  lemma {:induction false} SortIgnoresOrder<T>(less: (T, T) -> bool, all: set<T>, a: seq<T>, b: seq<T>)
    requires StrictTotal(less, all) && forall y | y in a :: y in all
    requires multiset(a) == multiset(b)
    ensures Sort(less, a) == Sort(less, b)
  {
    SortPermutes(less, a);
    SortPermutes(less, b);
    forall y | y in b ensures y in all {
      SameMembers(a, b, y);
    }
    forall y | y in Sort(less, a) ensures y in all {
      SameMembers(Sort(less, a), a, y);
    }
    SortSorts(less, all, a);
    SortSorts(less, all, b);
    SortUnique(less, all, Sort(less, a), Sort(less, b));
  }

  /** JavaScript's `s.slice(0, k)`: a negative bound counts from the end. */
  function Slice<T>(s: seq<T>, k: int): seq<T> {
    if k >= |s| then s else if k >= 0 then s[..k] else if |s| + k >= 0 then s[..|s| + k] else []
  }

  /** The first elements of the sorted list are the best ones: whatever is left out comes after each of them. */
  lemma {:induction false} BestAreTaken<T>(less: (T, T) -> bool, all: set<T>, s: seq<T>, k: int, m: T)
    requires StrictTotal(less, all) && forall y | y in s :: y in all
    ensures var top := Slice(Sort(less, s), k);
            && Sorted(less, top) && |top| == |Slice(s, k)| && (m in top ==> m in s)
            && (m in s && m !in top ==> forall t | t in top :: less(t, m))
  {
    var sorted, top := Sort(less, s), Slice(Sort(less, s), k);
    SortSorts(less, all, s);
    SortPermutes(less, s);
    SameMembers(sorted, s, m);
    if m in s && m !in top {
      var j :| 0 <= j < |sorted| && sorted[j] == m;
      forall t | t in top ensures less(t, m) {
        var i :| 0 <= i < |top| && top[i] == t;
        SameMembers(sorted, s, t);
        assert sorted[i] == t && i < j;
      }
    }
  }
}
