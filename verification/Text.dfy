/** Text primitives shared by the models: decimal rendering, JavaScript's string order, trimming. */
module Text {

  datatype Option<+T> = None | Some(value: T)

  // ---------- decimal numerals ----------

  predicate IsDigit(c: char) { '0' <= c <= '9' }

  predicate AllDigits(s: string) { forall i | 0 <= i < |s| :: IsDigit(s[i]) }

  function Digit(d: nat): char
    requires d < 10
  {
    '0' + d as char
  }

  /** `n.toString()` for a natural number. */
  function Decimal(n: nat): string {
    if n < 10 then [Digit(n)] else Decimal(n / 10) + [Digit(n % 10)]
  }

  /** `n.toString()` for an integer. */
  function IntText(n: int): string {
    if n < 0 then "-" + Decimal(-n) else Decimal(n)
  }

  /** The number a digit string denotes: `Number(s)`. */
  function Value(s: string): nat
    requires AllDigits(s)
  {
    if s == "" then 0 else 10 * Value(s[..|s| - 1]) + (s[|s| - 1] as int - '0' as int)
  }

  /** Reading a rendered number gives the number back. */
  lemma {:induction false} DecimalRoundTrip(n: nat)
    ensures Decimal(n) != "" && AllDigits(Decimal(n))
    ensures Value(Decimal(n)) == n
  {
    if n < 10 {
      assert Decimal(n)[..0] == "";
    } else {
      DecimalRoundTrip(n / 10);
      assert Decimal(n)[..|Decimal(n)| - 1] == Decimal(n / 10);
    }
  }

  lemma DecimalInjective(m: nat, n: nat)
    requires Decimal(m) == Decimal(n)
    ensures m == n
  {
    DecimalRoundTrip(m);
    DecimalRoundTrip(n);
  }

  lemma IntTextInjective(m: int, n: int)
    requires IntText(m) == IntText(n)
    ensures m == n
  {
    DecimalRoundTrip(if m < 0 then -m else m);
    DecimalRoundTrip(if n < 0 then -n else n);
    if m < 0 {
      assert IntText(m)[0] == '-';
      assert IntText(m)[1..] == Decimal(-m);
    }
    if n < 0 {
      assert IntText(n)[0] == '-';
      assert IntText(n)[1..] == Decimal(-n);
    }
  }

  /** `s.padStart(8, '0')`. */
  function PadStart8(s: string): string
    decreases 8 - |s|
  {
    if |s| >= 8 then s else PadStart8("0" + s)
  }

  lemma {:induction false} LeadingZero(s: string)
    requires AllDigits(s)
    ensures AllDigits("0" + s) && Value("0" + s) == Value(s)
  {
    var t := "0" + s;
    if s != "" {
      LeadingZero(s[..|s| - 1]);
      assert t[..|t| - 1] == "0" + s[..|s| - 1];
    } else {
      assert t[..0] == "";
    }
  }

  lemma {:induction false} PaddingKeepsValue(s: string)
    requires AllDigits(s)
    ensures AllDigits(PadStart8(s)) && Value(PadStart8(s)) == Value(s)
    decreases 8 - |s|
  {
    if |s| < 8 {
      LeadingZero(s);
      PaddingKeepsValue("0" + s);
    }
  }

  /** `${prefix}${n.toString().padStart(8, '0')}`: the ids the ledgers and the authority hand out. */
  function SerialId(prefix: string, n: nat): string {
    prefix + PadStart8(Decimal(n))
  }

  /** Serial ids never repeat, however far the counter runs past eight digits. */
  lemma SerialIdInjective(prefix: string, m: nat, n: nat)
    requires SerialId(prefix, m) == SerialId(prefix, n)
    ensures m == n
  {
    assert SerialId(prefix, m)[|prefix|..] == PadStart8(Decimal(m));
    assert SerialId(prefix, n)[|prefix|..] == PadStart8(Decimal(n));
    DecimalRoundTrip(m);
    DecimalRoundTrip(n);
    PaddingKeepsValue(Decimal(m));
    PaddingKeepsValue(Decimal(n));
  }

  /** A serial id is its prefix and the number in decimal, with zeros in front up to eight digits and no further. */
  lemma {:induction false} SerialTells(prefix: string, n: nat) returns (digits: string)
    ensures SerialId(prefix, n) == prefix + digits && |digits| >= 8 && AllDigits(digits) && Value(digits) == n
    ensures |digits| > 8 ==> digits == Decimal(n)
  {
    digits := PadStart8(Decimal(n));
    DecimalRoundTrip(n);
    PaddingKeepsValue(Decimal(n));
    PaddedLength(Decimal(n));
  }

  lemma {:induction false} PaddedLength(s: string)
    requires AllDigits(s)
    ensures |PadStart8(s)| >= 8 && AllDigits(PadStart8(s)) && (|PadStart8(s)| > 8 ==> PadStart8(s) == s)
    decreases 8 - |s|
  {
    if |s| < 8 {
      PaddedLength("0" + s);
    }
  }

  // ---------- order ----------

  /** Position of a character in UTF-16 code unit order: U+E000..U+FFFF sort after the surrogate pairs. */
  function UnitRank(c: char): int {
    if 0xE000 <= c as int <= 0xFFFF then c as int + 0x110000 else c as int
  }

  /** JavaScript's `a < b` on strings. */
  predicate StrLess(a: string, b: string) {
    b != "" && (a == "" || (if a[0] == b[0] then StrLess(a[1..], b[1..]) else UnitRank(a[0]) < UnitRank(b[0])))
  }

  lemma {:induction false} StrLessIrreflexive(a: string)
    ensures !StrLess(a, a)
  {
    if a != "" {
      StrLessIrreflexive(a[1..]);
    }
  }

  lemma {:induction false} StrLessTransitive(a: string, b: string, c: string)
    requires StrLess(a, b) && StrLess(b, c)
    ensures StrLess(a, c)
  {
    if a != "" && a[0] == b[0] && b[0] == c[0] {
      StrLessTransitive(a[1..], b[1..], c[1..]);
    }
  }

  lemma {:induction false} StrLessTotal(a: string, b: string)
    ensures a == b || StrLess(a, b) || StrLess(b, a)
  {
    if a != "" && b != "" && a[0] == b[0] {
      StrLessTotal(a[1..], b[1..]);
      assert a == [a[0]] + a[1..] && b == [b[0]] + b[1..];
    }
  }

  lemma StrLessAsymmetric(a: string, b: string)
    requires StrLess(a, b)
    ensures !StrLess(b, a)
  {
    if StrLess(b, a) {
      StrLessTransitive(a, b, a);
      StrLessIrreflexive(a);
    }
  }

  // ---------- trimming ----------

  /** The white space and line terminators `String.prototype.trim` removes. */
  predicate IsSpace(c: char) {
    var n := c as int;
    9 <= n <= 13 || n == 32 || n == 0xA0 || n == 0x1680 || 0x2000 <= n <= 0x200A ||
    n == 0x2028 || n == 0x2029 || n == 0x202F || n == 0x205F || n == 0x3000 || n == 0xFEFF
  }

  /** `s.trim()`. */
  function Trim(s: string): string
    decreases |s|
  {
    if s != "" && IsSpace(s[0]) then Trim(s[1..])
    else if s != "" && IsSpace(s[|s| - 1]) then Trim(s[..|s| - 1])
    else s
  }

  /** Trimming takes white space from both ends, and all of it. */
  lemma {:induction false} TrimTells(s: string) returns (before: string, after: string)
    ensures s == before + Trim(s) + after
    ensures (forall c | c in before :: IsSpace(c)) && (forall c | c in after :: IsSpace(c))
    ensures Trim(s) != "" ==> !IsSpace(Trim(s)[0]) && !IsSpace(Trim(s)[|Trim(s)| - 1])
    decreases |s|
  {
    before, after := "", "";
    if s != "" && IsSpace(s[0]) {
      before, after := TrimTells(s[1..]);
      before := [s[0]] + before;
    } else if s != "" && IsSpace(s[|s| - 1]) {
      before, after := TrimTells(s[..|s| - 1]);
      after := after + [s[|s| - 1]];
    }
  }

  /** `s.trim() || fallback`. */
  function TrimOr(s: string, fallback: string): string {
    var t := Trim(s);
    if t == "" then fallback else t
  }

  // ---------- splitting equal concatenations ----------

  lemma SplitEqual<T>(a: seq<T>, x: seq<T>, b: seq<T>, y: seq<T>)
    requires a + x == b + y && |a| == |b|
    ensures a == b && x == y
  {
    assert (a + x)[..|a|] == a && (b + y)[..|b|] == b;
    assert (a + x)[|a|..] == x && (b + y)[|b|..] == y;
  }

  lemma TakeNext<T>(s: seq<T>, i: nat)
    requires i < |s|
    ensures s[..i + 1] == s[..i] + [s[i]]
  {
  }

  lemma TakeAll<T>(s: seq<T>, n: nat)
    requires n == |s|
    ensures s[..n] == s
  {
  }

  lemma Reassociate<T>(a: seq<T>, b: seq<T>, c: seq<T>)
    ensures a + b + c == a + (b + c)
  {
  }

  lemma Regroup4<T>(a: seq<T>, b: seq<T>, c: seq<T>, d: seq<T>)
    ensures a + b + c + d == a + (b + (c + d))
  {
  }

  lemma Regroup6<T>(a: seq<T>, b: seq<T>, c: seq<T>, d: seq<T>, e: seq<T>, f: seq<T>)
    ensures a + b + c + d + e + f == a + (b + (c + (d + (e + f))))
  {
    Regroup4(a + b, c, d + e, f);
    assert a + b + c + d + e == a + b + c + (d + e);
    Regroup4(a, b, c, d + (e + f));
    assert d + e + f == d + (e + f);
  }
}
