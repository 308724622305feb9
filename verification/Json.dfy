/**
 JSON values, the text `JSON.stringify` gives them, and the key-sorted form packet hashing uses.
 Objects are member lists in enumeration order, so two objects that differ only in key order are
 different values here, as they are different property sequences in JavaScript.
 */
module Json {
  import opened Text

  datatype Json =
    | Null
    | Bool(b: bool)
    | Num(text: NumText)
    | Str(s: string)
    | Arr(items: Items)
    | Obj(members: Members)

  datatype Items = NoItems | Item(head: Json, tail: Items)

  datatype Members = NoMembers | Member(key: string, value: Json, rest: Members)

  predicate IsNumChar(c: char) { IsDigit(c) || c in "-+.eE" }

  /** A JSON number is represented by the token it is written as (RFC 8259, section 6). */
  type NumText = s: string | s != "" && forall i | 0 <= i < |s| :: IsNumChar(s[i]) witness "0"

  function Int(n: int): Json {
    IntTextIsNumber(n);
    Num(IntText(n))
  }

  lemma IntTextIsNumber(n: int)
    ensures IntText(n) != "" && forall i | 0 <= i < |IntText(n)| :: IsNumChar(IntText(n)[i])
  {
    DecimalRoundTrip(if n < 0 then -n else n);
  }

  function Keys(ms: Members): set<string> {
    match ms
    case NoMembers => {}
    case Member(k, _, rest) => {k} + Keys(rest)
  }

  function Get(ms: Members, key: string): Option<Json> {
    match ms
    case NoMembers => None
    case Member(k, v, rest) => if k == key then Some(v) else Get(rest, key)
  }

  lemma GetKeys(ms: Members, key: string)
    ensures key in Keys(ms) <==> Get(ms, key).Some?
  {
  }

  // ---------- JSON.stringify ----------

  function HexDigit(d: nat): char
    requires d < 16
  {
    if d < 10 then Digit(d) else 'a' + (d - 10) as char
  }

  /** How JSON.stringify writes one character of a string (RFC 8259, section 7). */
  function Escape(c: char): string {
    if c == '"' then "\\\""
    else if c == '\\' then "\\\\"
    else if c as int == 8 then "\\b"
    else if c as int == 9 then "\\t"
    else if c as int == 10 then "\\n"
    else if c as int == 12 then "\\f"
    else if c as int == 13 then "\\r"
    else if c as int < 32 then ['\\', 'u', '0', '0', HexDigit(c as int / 16), HexDigit(c as int % 16)]
    else [c]
  }

  function EscapeAll(s: string): string {
    if s == "" then "" else Escape(s[0]) + EscapeAll(s[1..])
  }

  function Quote(s: string): string { "\"" + EscapeAll(s) + "\"" }

  /** `JSON.stringify(v)`. */
  function Stringify(v: Json): string {
    match v
    case Null => "null"
    case Bool(b) => if b then "true" else "false"
    case Num(text) => text
    case Str(s) => Quote(s)
    case Arr(NoItems) => "[]"
    case Arr(Item(h, t)) => "[" + Stringify(h) + ItemsTail(t)
    case Obj(NoMembers) => "{}"
    case Obj(Member(k, x, rest)) => "{" + Quote(k) + ":" + Stringify(x) + MembersTail(rest)
  }

  function ItemsTail(items: Items): string {
    match items
    case NoItems => "]"
    case Item(h, t) => "," + Stringify(h) + ItemsTail(t)
  }

  function MembersTail(ms: Members): string {
    match ms
    case NoMembers => "}"
    case Member(k, v, rest) => "," + Quote(k) + ":" + Stringify(v) + MembersTail(rest)
  }

  // ---------- the text determines the value ----------

  lemma EscapeUnique(c: char, x: string, d: char, y: string)
    requires Escape(c) + x == Escape(d) + y
    ensures c == d && x == y
  {
    var l, r := Escape(c) + x, Escape(d) + y;
    assert l[0] == r[0];
    if c as int < 32 || c == '"' || c == '\\' {
      assert l[0] == '\\' && l[1] == Escape(c)[1];
      assert d as int < 32 || d == '"' || d == '\\';
      assert r[1] == Escape(d)[1];
      if Escape(c)[1] == 'u' {
        assert l[4] == Escape(c)[4] && l[5] == Escape(c)[5];
        assert r[4] == Escape(d)[4] && r[5] == Escape(d)[5];
      }
    }
    assert c == d;
    SplitEqual(Escape(c), x, Escape(d), y);
  }

  /** A quoted string marks its own end: whatever follows cannot be confused with it. */
  lemma {:induction false} EscapeAllUnique(s: string, x: string, t: string, y: string)
    requires EscapeAll(s) + ("\"" + x) == EscapeAll(t) + ("\"" + y)
    ensures s == t && x == y
  {
    var l, r := EscapeAll(s) + ("\"" + x), EscapeAll(t) + ("\"" + y);
    assert s != "" ==> l[0] == Escape(s[0])[0] != '"';
    assert t != "" ==> r[0] == Escape(t[0])[0] != '"';
    assert s == "" ==> l[0] == '"';
    assert t == "" ==> r[0] == '"';
    if s == "" || t == "" {
      assert l == "\"" + x && r == "\"" + y;
      SplitEqual("\"", x, "\"", y);
    } else {
      EscapeStep(s, x);
      EscapeStep(t, y);
      EscapeUnique(s[0], EscapeAll(s[1..]) + ("\"" + x), t[0], EscapeAll(t[1..]) + ("\"" + y));
      EscapeAllUnique(s[1..], x, t[1..], y);
      assert s == [s[0]] + s[1..] && t == [t[0]] + t[1..];
    }
  }

  lemma EscapeStep(s: string, x: string)
    requires s != ""
    ensures EscapeAll(s) + ("\"" + x) == Escape(s[0]) + (EscapeAll(s[1..]) + ("\"" + x))
  {
  }

  lemma QuoteUnique(s: string, x: string, t: string, y: string)
    requires Quote(s) + x == Quote(t) + y
    ensures s == t && x == y
  {
    Regroup4("\"", EscapeAll(s), "\"", x);
    Regroup4("\"", EscapeAll(t), "\"", y);
    SplitEqual("\"", EscapeAll(s) + ("\"" + x), "\"", EscapeAll(t) + ("\"" + y));
    EscapeAllUnique(s, x, t, y);
  }

  /** What may follow a value inside a JSON text. */
  predicate Stops(r: string) { r == "" || r[0] in ",]}" }

  lemma NumUnique(s: NumText, x: string, t: NumText, y: string)
    requires s + x == t + y && Stops(x) && Stops(y)
    ensures s == t && x == y
  {
    var l, r := s + x, t + y;
    assert forall i | 0 <= i < |s| :: l[i] == s[i];
    assert forall i | 0 <= i < |t| :: r[i] == t[i];
    assert x != "" ==> !IsNumChar(l[|s|]);
    assert y != "" ==> !IsNumChar(r[|t|]);
    assert |s| == |t|;
    SplitEqual(s, x, t, y);
  }

  /** The first character of a text tells which kind of value it writes. */
  function Kind(v: Json): (k: int) {
    match v
    case Null => 0
    case Bool(b) => if b then 1 else 2
    case Num(_) => 3
    case Str(_) => 4
    case Arr(_) => 5
    case Obj(_) => 6
  }

  function KindOf(c: char): int {
    if c == 'n' then 0 else if c == 't' then 1 else if c == 'f' then 2 else if IsNumChar(c) then 3
    else if c == '"' then 4 else if c == '[' then 5 else if c == '{' then 6 else 7
  }

  lemma FirstCharacter(v: Json)
    ensures Stringify(v) != "" && KindOf(Stringify(v)[0]) == Kind(v)
  {
  }

  /** Reading a JSON text is deterministic: value and remainder are both fixed by the characters. */
  lemma {:induction false} StringifyUnique(v: Json, x: string, w: Json, y: string)
    requires Stringify(v) + x == Stringify(w) + y && Stops(x) && Stops(y)
    ensures v == w && x == y
    decreases v, 1
  {
    FirstCharacter(v);
    FirstCharacter(w);
    assert (Stringify(v) + x)[0] == Stringify(v)[0] && (Stringify(w) + y)[0] == Stringify(w)[0];
    match v
    case Null => SplitEqual("null", x, "null", y);
    case Bool(b) => SplitEqual(Stringify(v), x, Stringify(w), y);
    case Num(s) => NumUnique(s, x, w.text, y);
    case Str(s) => QuoteUnique(s, x, w.s, y);
    case Arr(a) => ArrUnique(a, x, w.items, y);
    case Obj(a) => ObjUnique(a, x, w.members, y);
  }

  lemma {:induction false} ArrUnique(a: Items, x: string, b: Items, y: string)
    requires Stringify(Arr(a)) + x == Stringify(Arr(b)) + y
    ensures a == b && x == y
    decreases a, 2
  {
    var l, r := Stringify(Arr(a)) + x, Stringify(Arr(b)) + y;
    if a.Item? {
      FirstCharacter(a.head);
      assert l[1] == Stringify(a.head)[0];
    } else {
      assert l[1] == ']';
    }
    if b.Item? {
      FirstCharacter(b.head);
      assert r[1] == Stringify(b.head)[0];
    } else {
      assert r[1] == ']';
    }
    if a.NoItems? || b.NoItems? {
      SplitEqual("[]", x, "[]", y);
    } else {
      Regroup4("[", Stringify(a.head), ItemsTail(a.tail), x);
      Regroup4("[", Stringify(b.head), ItemsTail(b.tail), y);
      SplitEqual("[", Stringify(a.head) + (ItemsTail(a.tail) + x), "[", Stringify(b.head) + (ItemsTail(b.tail) + y));
      StringifyUnique(a.head, ItemsTail(a.tail) + x, b.head, ItemsTail(b.tail) + y);
      ItemsTailUnique(a.tail, x, b.tail, y);
    }
  }

  lemma {:induction false} ItemsTailUnique(a: Items, x: string, b: Items, y: string)
    requires ItemsTail(a) + x == ItemsTail(b) + y
    ensures a == b && x == y
    decreases a, 0
  {
    var l, r := ItemsTail(a) + x, ItemsTail(b) + y;
    assert l[0] == (if a.NoItems? then ']' else ',');
    assert r[0] == (if b.NoItems? then ']' else ',');
    if a.NoItems? {
      SplitEqual("]", x, "]", y);
    } else {
      Regroup4(",", Stringify(a.head), ItemsTail(a.tail), x);
      Regroup4(",", Stringify(b.head), ItemsTail(b.tail), y);
      SplitEqual(",", Stringify(a.head) + (ItemsTail(a.tail) + x), ",", Stringify(b.head) + (ItemsTail(b.tail) + y));
      StringifyUnique(a.head, ItemsTail(a.tail) + x, b.head, ItemsTail(b.tail) + y);
      ItemsTailUnique(a.tail, x, b.tail, y);
    }
  }

  lemma {:induction false} ObjUnique(a: Members, x: string, b: Members, y: string)
    requires Stringify(Obj(a)) + x == Stringify(Obj(b)) + y
    ensures a == b && x == y
    decreases a, 2
  {
    var l, r := Stringify(Obj(a)) + x, Stringify(Obj(b)) + y;
    assert l[1] == (if a.NoMembers? then '}' else '"');
    assert r[1] == (if b.NoMembers? then '}' else '"');
    if a.NoMembers? {
      SplitEqual("{}", x, "{}", y);
    } else {
      Regroup6("{", Quote(a.key), ":", Stringify(a.value), MembersTail(a.rest), x);
      Regroup6("{", Quote(b.key), ":", Stringify(b.value), MembersTail(b.rest), y);
      MemberUnique("{", a, x, b, y);
    }
  }

  lemma {:induction false} MembersTailUnique(a: Members, x: string, b: Members, y: string)
    requires MembersTail(a) + x == MembersTail(b) + y
    ensures a == b && x == y
    decreases a, 0
  {
    var l, r := MembersTail(a) + x, MembersTail(b) + y;
    assert l[0] == (if a.NoMembers? then '}' else ',');
    assert r[0] == (if b.NoMembers? then '}' else ',');
    if a.NoMembers? {
      SplitEqual("}", x, "}", y);
    } else {
      Regroup6(",", Quote(a.key), ":", Stringify(a.value), MembersTail(a.rest), x);
      Regroup6(",", Quote(b.key), ":", Stringify(b.value), MembersTail(b.rest), y);
      MemberUnique(",", a, x, b, y);
    }
  }

  /** One `"key":value` pair after the same one-character lead, then the rest of the object. */
  lemma {:induction false} MemberUnique(lead: string, a: Members, x: string, b: Members, y: string)
    requires |lead| == 1 && a.Member? && b.Member?
    requires lead + (Quote(a.key) + (":" + (Stringify(a.value) + (MembersTail(a.rest) + x))))
          == lead + (Quote(b.key) + (":" + (Stringify(b.value) + (MembersTail(b.rest) + y))))
    ensures a == b && x == y
    decreases a, -1
  {
    var va, vb := Stringify(a.value) + (MembersTail(a.rest) + x), Stringify(b.value) + (MembersTail(b.rest) + y);
    SplitEqual(lead, Quote(a.key) + (":" + va), lead, Quote(b.key) + (":" + vb));
    QuoteUnique(a.key, ":" + va, b.key, ":" + vb);
    SplitEqual(":", va, ":", vb);
    StringifyUnique(a.value, MembersTail(a.rest) + x, b.value, MembersTail(b.rest) + y);
    MembersTailUnique(a.rest, x, b.rest, y);
  }

  /** JSON.stringify is injective on JSON values. */
  lemma StringifyInjective(v: Json, w: Json)
    requires Stringify(v) == Stringify(w)
    ensures v == w
  {
    assert Stringify(v) + "" == Stringify(w) + "";
    StringifyUnique(v, "", w, "");
  }

  // ---------- sortValue ----------

  /** Put one member into a key-sorted list. */
  function InsertByKey(k: string, v: Json, ms: Members): Members {
    match ms
    case NoMembers => Member(k, v, NoMembers)
    case Member(j, x, rest) =>
      if StrLess(k, j) then Member(k, v, ms) else Member(j, x, InsertByKey(k, v, rest))
  }

  /** `sortValue`: order the keys of every object, at every depth. */
  function SortValue(v: Json): Json {
    match v
    case Arr(items) => Arr(SortItems(items))
    case Obj(ms) => Obj(SortMembers(ms))
    case _ => v
  }

  function SortItems(items: Items): Items {
    match items
    case NoItems => NoItems
    case Item(h, t) => Item(SortValue(h), SortItems(t))
  }

  function SortMembers(ms: Members): Members {
    match ms
    case NoMembers => NoMembers
    case Member(k, v, rest) => InsertByKey(k, SortValue(v), SortMembers(rest))
  }

  /** No object repeats a key, at any depth: what a JavaScript object guarantees. */
  predicate Distinct(v: Json) {
    match v
    case Arr(items) => DistinctItems(items)
    case Obj(ms) => DistinctMembers(ms)
    case _ => true
  }

  predicate DistinctItems(items: Items) {
    match items
    case NoItems => true
    case Item(h, t) => Distinct(h) && DistinctItems(t)
  }

  predicate DistinctMembers(ms: Members) {
    match ms
    case NoMembers => true
    case Member(k, v, rest) => k !in Keys(rest) && Distinct(v) && DistinctMembers(rest)
  }

  /** Equal up to the order of object keys, at every depth. */
  predicate Equivalent(v: Json, w: Json) {
    match v
    case Arr(a) => w.Arr? && EquivalentItems(a, w.items)
    case Obj(a) => w.Obj? && Keys(a) == Keys(w.members) && EquivalentMembers(a, w.members)
    case _ => v == w
  }

  predicate EquivalentItems(a: Items, b: Items) {
    match a
    case NoItems => b.NoItems?
    case Item(h, t) => b.Item? && Equivalent(h, b.head) && EquivalentItems(t, b.tail)
  }

  /** Every member of `a` has a member of `b` with the same key and an equivalent value. */
  predicate EquivalentMembers(a: Members, b: Members) {
    match a
    case NoMembers => true
    case Member(k, v, rest) =>
      Get(b, k).Some? && Equivalent(v, Get(b, k).value) && EquivalentMembers(rest, b)
  }

  predicate SortedKeys(ms: Members) {
    match ms
    case NoMembers => true
    case Member(k, _, rest) => (forall j | j in Keys(rest) :: StrLess(k, j)) && SortedKeys(rest)
  }

  lemma {:induction false} InsertByKeySorted(k: string, v: Json, ms: Members, probe: string)
    requires SortedKeys(ms) && k !in Keys(ms)
    ensures SortedKeys(InsertByKey(k, v, ms)) && Keys(InsertByKey(k, v, ms)) == {k} + Keys(ms)
    ensures Get(InsertByKey(k, v, ms), probe) == if probe == k then Some(v) else Get(ms, probe)
  {
    match ms
    case NoMembers =>
    case Member(j, x, rest) =>
      StrLessTotal(k, j);
      if StrLess(k, j) {
        forall i | i in Keys(rest) ensures StrLess(k, i) {
          StrLessTransitive(k, j, i);
        }
        GetKeys(ms, k);
      } else {
        InsertByKeySorted(k, v, rest, probe);
      }
  }

  function SortOption(v: Option<Json>): Option<Json> {
    match v
    case None => None
    case Some(x) => Some(SortValue(x))
  }

  /** Sorting an object changes neither its keys nor, up to sorting, its values. */
  lemma {:induction false} SortMembersGet(ms: Members, probe: string)
    requires DistinctMembers(ms)
    ensures SortedKeys(SortMembers(ms)) && Keys(SortMembers(ms)) == Keys(ms)
    ensures Get(SortMembers(ms), probe) == SortOption(Get(ms, probe))
  {
    match ms
    case NoMembers =>
    case Member(k, v, rest) =>
      SortMembersGet(rest, probe);
      InsertByKeySorted(k, SortValue(v), SortMembers(rest), probe);
  }

  /** A key-sorted member list is determined by what it maps each key to. */
  lemma {:induction false} SortedExtensional(a: Members, b: Members)
    requires SortedKeys(a) && SortedKeys(b)
    requires forall k :: Get(a, k) == Get(b, k)
    ensures a == b
  {
    assert a.Member? ==> Get(a, a.key).Some?;
    assert b.Member? ==> Get(b, b.key).Some?;
    if a.Member? && b.Member? {
      GetKeys(b, a.key);
      GetKeys(a, b.key);
      if a.key != b.key {
        StrLessAsymmetric(a.key, b.key);
        assert false;
      }
      StrLessIrreflexive(a.key);
      forall k ensures Get(a.rest, k) == Get(b.rest, k) {
        assert Get(a, k) == Get(b, k);
        GetKeys(a.rest, k);
        GetKeys(b.rest, k);
      }
      SortedExtensional(a.rest, b.rest);
    }
  }

  /**
   The sorted form decides equality up to key order: for values whose objects do not repeat keys,
   two values have the same sorted form exactly when they are equivalent.
   */
  lemma {:induction false} SortDecides(v: Json, w: Json)
    requires Distinct(v) && Distinct(w)
    ensures Equivalent(v, w) <==> SortValue(v) == SortValue(w)
    decreases v
  {
    match v
    case Arr(a) =>
      if w.Arr? {
        SortItemsDecides(a, w.items);
      }
    case Obj(a) =>
      if w.Obj? {
        var b := w.members;
        SortMembersDecides(a, b);
        if Keys(a) == Keys(b) && EquivalentMembers(a, b) {
          forall k ensures Get(SortMembers(a), k) == Get(SortMembers(b), k) {
            SortMembersGet(a, k);
            SortMembersGet(b, k);
            GetKeys(a, k);
            GetKeys(b, k);
          }
          SortMembersGet(a, "");
          SortMembersGet(b, "");
          SortedExtensional(SortMembers(a), SortMembers(b));
        }
        if SortMembers(a) == SortMembers(b) {
          SortMembersGet(a, "");
          SortMembersGet(b, "");
          forall k | k in Keys(a) ensures SameWhenSorted(a, b, k) {
            SortMembersGet(a, k);
            SortMembersGet(b, k);
            GetKeys(b, k);
          }
        }
      }
    case _ =>
  }

  lemma {:induction false} SortItemsDecides(a: Items, b: Items)
    requires DistinctItems(a) && DistinctItems(b)
    ensures EquivalentItems(a, b) <==> SortItems(a) == SortItems(b)
    decreases a
  {
    if a.Item? && b.Item? {
      SortDecides(a.head, b.head);
      SortItemsDecides(a.tail, b.tail);
    }
  }

  lemma {:induction false} DistinctGet(ms: Members, k: string)
    requires DistinctMembers(ms) && Get(ms, k).Some?
    ensures Distinct(Get(ms, k).value)
  {
    if ms.key != k {
      DistinctGet(ms.rest, k);
    }
  }

  predicate SameWhenSorted(a: Members, b: Members, k: string) {
    Get(b, k).Some? && SortOption(Get(a, k)) == SortOption(Get(b, k))
  }

  lemma {:induction false} SortMembersDecides(a: Members, b: Members)
    requires DistinctMembers(a) && DistinctMembers(b)
    ensures EquivalentMembers(a, b) <==>
            forall k | k in Keys(a) :: SameWhenSorted(a, b, k)
    decreases a
  {
    match a
    case NoMembers =>
    case Member(j, v, rest) =>
      SortMembersDecides(rest, b);
      if Get(b, j).Some? {
        DistinctGet(b, j);
        SortDecides(v, Get(b, j).value);
      }
      assert forall k | k in Keys(rest) :: SameWhenSorted(a, b, k) <==> SameWhenSorted(rest, b, k);
      assert j in Keys(a) && (forall k | k in Keys(a) :: k == j || k in Keys(rest));
      assert EquivalentMembers(a, b) <==> (SameWhenSorted(a, b, j) && EquivalentMembers(rest, b));
      assert EquivalentMembers(a, b) ==> forall k | k in Keys(a) :: SameWhenSorted(a, b, k);
  }

  /** Sorted member lists whose values are already sorted are fixed points. */
  predicate FixedMembers(ms: Members) {
    match ms
    case NoMembers => true
    case Member(_, v, rest) => SortValue(v) == v && FixedMembers(rest)
  }

  lemma {:induction false} SortFixed(ms: Members)
    requires SortedKeys(ms) && FixedMembers(ms)
    ensures SortMembers(ms) == ms
  {
    match ms
    case NoMembers =>
    case Member(k, v, rest) =>
      SortFixed(rest);
  }

  lemma {:induction false} InsertFixed(k: string, v: Json, ms: Members)
    requires SortValue(v) == v && FixedMembers(ms)
    ensures FixedMembers(InsertByKey(k, v, ms))
  {
    if ms.Member? && !StrLess(k, ms.key) {
      InsertFixed(k, v, ms.rest);
    }
  }

  /** Sorting twice is sorting once. */
  lemma {:induction false} SortIdempotent(v: Json)
    requires Distinct(v)
    ensures SortValue(SortValue(v)) == SortValue(v)
  {
    match v
    case Arr(items) => SortItemsIdempotent(items);
    case Obj(ms) =>
      SortMembersFixed(ms);
      SortMembersGet(ms, "");
      SortFixed(SortMembers(ms));
    case _ =>
  }

  lemma {:induction false} SortItemsIdempotent(items: Items)
    requires DistinctItems(items)
    ensures SortItems(SortItems(items)) == SortItems(items)
  {
    if items.Item? {
      SortIdempotent(items.head);
      SortItemsIdempotent(items.tail);
    }
  }

  lemma {:induction false} SortMembersFixed(ms: Members)
    requires DistinctMembers(ms)
    ensures FixedMembers(SortMembers(ms))
  {
    match ms
    case NoMembers =>
    case Member(k, v, rest) =>
      SortIdempotent(v);
      SortMembersFixed(rest);
      InsertFixed(k, SortValue(v), SortMembers(rest));
  }

  // ---------- sortValue in the shape of its source: sort the entries, then fill `out` ----------

  /** `Object.entries(value).sort(...)`: the members by key, values untouched. */
  function SortEntries(ms: Members): Members {
    match ms
    case NoMembers => NoMembers
    case Member(k, v, rest) => InsertByKey(k, v, SortEntries(rest))
  }

  function SortEach(ms: Members): Members {
    match ms
    case NoMembers => NoMembers
    case Member(k, v, rest) => Member(k, SortValue(v), SortEach(rest))
  }

  lemma {:induction false} SortEachInsert(k: string, v: Json, ms: Members)
    ensures SortEach(InsertByKey(k, v, ms)) == InsertByKey(k, SortValue(v), SortEach(ms))
  {
    if ms.Member? && !StrLess(k, ms.key) {
      SortEachInsert(k, v, ms.rest);
    }
  }

  /** Sorting the entries first and their values afterwards builds the same object. */
  lemma {:induction false} EntriesFirst(ms: Members)
    ensures SortEach(SortEntries(ms)) == SortMembers(ms)
  {
    match ms
    case NoMembers =>
    case Member(k, v, rest) =>
      EntriesFirst(rest);
      SortEachInsert(k, v, SortEntries(rest));
  }

  function Size(v: Json): nat {
    match v
    case Arr(items) => 1 + ItemsSize(items)
    case Obj(ms) => 1 + MembersSize(ms)
    case _ => 1
  }

  function ItemsSize(items: Items): nat {
    match items
    case NoItems => 0
    case Item(h, t) => Size(h) + ItemsSize(t)
  }

  function MembersSize(ms: Members): nat {
    match ms
    case NoMembers => 0
    case Member(_, v, rest) => Size(v) + MembersSize(rest)
  }

  lemma {:induction false} SortEntriesSize(ms: Members)
    ensures MembersSize(SortEntries(ms)) == MembersSize(ms)
  {
    match ms
    case NoMembers =>
    case Member(k, v, rest) =>
      SortEntriesSize(rest);
      InsertSize(k, v, SortEntries(rest));
  }

  lemma {:induction false} InsertSize(k: string, v: Json, ms: Members)
    ensures MembersSize(InsertByKey(k, v, ms)) == Size(v) + MembersSize(ms)
  {
    if ms.Member? && !StrLess(k, ms.key) {
      InsertSize(k, v, ms.rest);
    }
  }

  function Concat(a: Members, b: Members): Members {
    match a
    case NoMembers => b
    case Member(k, v, rest) => Member(k, v, Concat(rest, b))
  }

  function ConcatItems(a: Items, b: Items): Items {
    match a
    case NoItems => b
    case Item(h, t) => Item(h, ConcatItems(t, b))
  }

  lemma ConcatAssociative(a: Members, b: Members, c: Members)
    ensures Concat(Concat(a, b), c) == Concat(a, Concat(b, c))
    ensures Concat(a, NoMembers) == a
  {
  }

  lemma ConcatItemsAssociative(a: Items, b: Items, c: Items)
    ensures ConcatItems(ConcatItems(a, b), c) == ConcatItems(a, ConcatItems(b, c))
    ensures ConcatItems(a, NoItems) == a
  {
  }

  method SortValueLoop(value: Json) returns (sorted: Json)
    ensures sorted == SortValue(value)
    decreases Size(value)
  {
    match value
    case Arr(items) =>
      var out, rest := NoItems, items;
      while rest.Item?
        invariant ItemsSize(rest) < Size(value)
        invariant ConcatItems(out, SortItems(rest)) == SortItems(items)
        decreases rest
      {
        var v := SortValueLoop(rest.head);
        ConcatItemsAssociative(out, Item(v, NoItems), SortItems(rest.tail));
        out, rest := ConcatItems(out, Item(v, NoItems)), rest.tail;
      }
      ConcatItemsAssociative(out, NoItems, NoItems);
      sorted := Arr(out);
    case Obj(ms) =>
      var out, rest := NoMembers, SortEntries(ms);
      SortEntriesSize(ms);
      EntriesFirst(ms);
      while rest.Member?
        invariant MembersSize(rest) < Size(value)
        invariant Concat(out, SortEach(rest)) == SortMembers(ms)
        decreases rest
      {
        var v := SortValueLoop(rest.value);
        ConcatAssociative(out, Member(rest.key, v, NoMembers), SortEach(rest.rest));
        out, rest := Concat(out, Member(rest.key, v, NoMembers)), rest.rest;
      }
      ConcatAssociative(out, NoMembers, NoMembers);
      sorted := Obj(out);
    case _ =>
      sorted := value;
  }
}
