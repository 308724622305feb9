/** JavaScript's order of strings: that of their UTF-16 code units. */
module Utf16 {
  import opened Text

  /** The code units of a character: itself, or a surrogate pair (RFC 2781, section 2.1). */
  function UnitsOf(c: char): seq<int> {
    if c as int < 0x10000 then [c as int]
    else [0xD800 + (c as int - 0x10000) / 0x400, 0xDC00 + (c as int - 0x10000) % 0x400]
  }

  function Units(s: string): seq<int> {
    if s == "" then [] else UnitsOf(s[0]) + Units(s[1..])
  }

  /** The first list is a proper beginning of the second, or is smaller where they first differ. */
  ghost predicate UnitsLess(a: seq<int>, b: seq<int>) {
    exists n :: 0 <= n <= |a| && n <= |b| && a[..n] == b[..n] && n < |b| && (n < |a| ==> a[n] < b[n])
  }

  lemma UnitsDiffer(c: char, d: char)
    requires c != d
    ensures var x, y := UnitsOf(c), UnitsOf(d);
            if x[0] == y[0] then |x| == |y| == 2 && x[1] != y[1] && (x[1] < y[1] <==> UnitRank(c) < UnitRank(d))
            else x[0] < y[0] <==> UnitRank(c) < UnitRank(d)
  {
    var m, n := c as int - 0x10000, d as int - 0x10000;
    if m >= 0 && n >= 0 {
      assert m == m / 0x400 * 0x400 + m % 0x400 && n == n / 0x400 * 0x400 + n % 0x400;
    }
  }

  /** Two lists of units that agree up to a place and differ there. */
  lemma {:induction false} LessAt(a: seq<int>, b: seq<int>, n: nat)
    requires n < |a| && n < |b| && a[..n] == b[..n] && a[n] != b[n]
    ensures UnitsLess(a, b) <==> a[n] < b[n]
  {
    assert forall m | 0 <= m < n :: a[m] == a[..n][m] == b[m];
    if UnitsLess(a, b) {
      var m :| 0 <= m <= |a| && m <= |b| && a[..m] == b[..m] && m < |b| && (m < |a| ==> a[m] < b[m]);
      assert m > n ==> a[..m][n] == b[..m][n];
    }
  }

  lemma {:induction false} LessAfter(x: seq<int>, a: seq<int>, b: seq<int>)
    ensures UnitsLess(x + a, x + b) <==> UnitsLess(a, b)
  {
    if UnitsLess(a, b) {
      var n :| 0 <= n <= |a| && n <= |b| && a[..n] == b[..n] && n < |b| && (n < |a| ==> a[n] < b[n]);
      assert (x + a)[..|x| + n] == x + a[..n] == x + b[..n] == (x + b)[..|x| + n];
    }
    if UnitsLess(x + a, x + b) {
      var u, v := x + a, x + b;
      var n :| 0 <= n <= |u| && n <= |v| && u[..n] == v[..n] && n < |v| && (n < |u| ==> u[n] < v[n]);
      assert n >= |x|;
      var m := n - |x|;
      assert u[..n][|x|..] == a[..m] && v[..n][|x|..] == b[..m];
    }
  }

  lemma {:induction false} UnitsNotEmpty(s: string)
    requires s != ""
    ensures Units(s) != [] && Units(s)[0] == UnitsOf(s[0])[0]
  {
  }

  /** The order on characters used for sorting is exactly the order of code units. */
  lemma {:induction false} StrLessIsUnitOrder(a: string, b: string)
    ensures StrLess(a, b) <==> UnitsLess(Units(a), Units(b))
  {
    if b == "" {
      assert Units(b) == [];
    } else if a == "" {
      UnitsNotEmpty(b);
      assert Units(a)[..0] == Units(b)[..0] == [];
    } else if a[0] == b[0] {
      StrLessIsUnitOrder(a[1..], b[1..]);
      LessAfter(UnitsOf(a[0]), Units(a[1..]), Units(b[1..]));
    } else {
      var x, y, u, v := UnitsOf(a[0]), UnitsOf(b[0]), Units(a), Units(b);
      UnitsDiffer(a[0], b[0]);
      if x[0] == y[0] {
        assert u[..1] == [x[0]] == v[..1] && u[1] == x[1] && v[1] == y[1];
        LessAt(u, v, 1);
      } else {
        assert u[..0] == v[..0] && u[0] == x[0] && v[0] == y[0];
        LessAt(u, v, 0);
      }
    }
  }
}
