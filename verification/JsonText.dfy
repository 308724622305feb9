/**
 A reader of JSON text (RFC 8259, without white space between tokens), written apart from `Stringify`, and the proof
 that it reads back whatever `Stringify` writes.
 */
module JsonText {
  import opened Text
  import opened Json

  /** What has been read, and the text after it. */
  datatype Read<T> = Read(value: T, rest: string)

  predicate StartsWith(s: string, word: string) { |word| <= |s| && s[..|word|] == word }

  function HexValue(c: char): Option<nat> {
    if '0' <= c <= '9' then Some(c as int - '0' as int)
    else if 'a' <= c <= 'f' then Some(c as int - 'a' as int + 10)
    else if 'A' <= c <= 'F' then Some(c as int - 'A' as int + 10)
    else None
  }

  /** The character that a letter after a backslash stands for (section 7), other than `u`. */
  function Unescaped(c: char): Option<char> {
    if c == '"' || c == '\\' || c == '/' then Some(c)
    else if c == 'b' then Some(8 as char)
    else if c == 'f' then Some(12 as char)
    else if c == 'n' then Some(10 as char)
    else if c == 'r' then Some(13 as char)
    else if c == 't' then Some(9 as char)
    else None
  }

  /** The character of `\u` and four hexadecimal digits, of those below the surrogates. */
  function FourDigits(s: string): Option<char>
    requires |s| >= 4
  {
    var a, b, c, d := HexValue(s[0]), HexValue(s[1]), HexValue(s[2]), HexValue(s[3]);
    if a.None? || b.None? || c.None? || d.None? then None
    else
      var n := ((a.value * 16 + b.value) * 16 + c.value) * 16 + d.value;
      if n < 0xD800 then Some(n as char) else None
  }

  /** One character of a string, as it is or escaped; none at the closing quote or before the end. */
  function ReadChar(s: string): (r: Option<Read<char>>)
    ensures r.Some? ==> |r.value.rest| < |s|
  {
    if s == "" || s[0] == '"' || s[0] as int < 32 then None
    else if s[0] != '\\' then Some(Read(s[0], s[1..]))
    else if |s| >= 6 && s[1] == 'u' then
      var c := FourDigits(s[2..]);
      if c.Some? then Some(Read(c.value, s[6..])) else None
    else if |s| >= 2 && Unescaped(s[1]).Some? then Some(Read(Unescaped(s[1]).value, s[2..]))
    else None
  }

  /** The characters up to the closing quote. */
  function ReadChars(s: string): (r: Option<Read<string>>)
    ensures r.Some? ==> |r.value.rest| < |s|
    decreases |s|
  {
    if s != "" && s[0] == '"' then Some(Read("", s[1..]))
    else
      match ReadChar(s)
      case None => None
      case Some(c) =>
        match ReadChars(c.rest)
        case None => None
        case Some(cs) => Some(Read([c.value] + cs.value, cs.rest))
  }

  /** The longest run of characters a number is made of. */
  function NumberOf(s: string): (n: string)
    ensures |n| <= |s| && s[..|n|] == n && forall i | 0 <= i < |n| :: IsNumChar(n[i])
  {
    if s != "" && IsNumChar(s[0]) then [s[0]] + NumberOf(s[1..]) else ""
  }

  function ReadWord(s: string, word: string, v: Json): (r: Option<Read<Json>>)
    requires word != ""
    ensures r.Some? ==> |r.value.rest| < |s|
  {
    if StartsWith(s, word) then Some(Read(v, s[|word|..])) else None
  }

  function ReadNumber(s: string): (r: Option<Read<Json>>)
    ensures r.Some? ==> |r.value.rest| < |s|
  {
    var n := NumberOf(s);
    if n == "" then None else Some(Read(Num(n), s[|n|..]))
  }

  /** A value: its first character tells which kind. */
  function ReadValue(s: string): (r: Option<Read<Json>>)
    ensures r.Some? ==> |r.value.rest| < |s|
    decreases |s|, 1
  {
    if s == "" then None
    else if s[0] == 'n' then ReadWord(s, "null", Null)
    else if s[0] == 't' then ReadWord(s, "true", Bool(true))
    else if s[0] == 'f' then ReadWord(s, "false", Bool(false))
    else if s[0] == '"' then
      var cs := ReadChars(s[1..]);
      if cs.Some? then Some(Read(Str(cs.value.value), cs.value.rest)) else None
    else if s[0] == '[' then
      if |s| >= 2 && s[1] == ']' then Some(Read(Arr(NoItems), s[2..]))
      else
        var items := ReadItems(s[1..]);
        if items.Some? then Some(Read(Arr(items.value.value), items.value.rest)) else None
    else if s[0] == '{' then
      if |s| >= 2 && s[1] == '}' then Some(Read(Obj(NoMembers), s[2..]))
      else
        var members := ReadMembers(s[1..]);
        if members.Some? then Some(Read(Obj(members.value.value), members.value.rest)) else None
    else ReadNumber(s)
  }

  /** Elements separated by commas, up to the closing bracket; one at least. */
  function ReadItems(s: string): (r: Option<Read<Items>>)
    ensures r.Some? ==> |r.value.rest| < |s|
    decreases |s|, 2
  {
    match ReadValue(s)
    case None => None
    case Some(v) =>
      if StartsWith(v.rest, "]") then Some(Read(Item(v.value, NoItems), v.rest[1..]))
      else if StartsWith(v.rest, ",") then
        match ReadItems(v.rest[1..])
        case None => None
        case Some(more) => Some(Read(Item(v.value, more.value), more.rest))
      else None
  }

  /** Members separated by commas, up to the closing brace; one at least. */
  function ReadMembers(s: string): (r: Option<Read<Members>>)
    ensures r.Some? ==> |r.value.rest| < |s|
    decreases |s|, 2
  {
    if !StartsWith(s, "\"") then None
    else
      match ReadChars(s[1..])
      case None => None
      case Some(key) =>
        if !StartsWith(key.rest, ":") then None
        else
          match ReadValue(key.rest[1..])
          case None => None
          case Some(v) =>
            if StartsWith(v.rest, "}") then Some(Read(Member(key.value, v.value, NoMembers), v.rest[1..]))
            else if StartsWith(v.rest, ",") then
              match ReadMembers(v.rest[1..])
              case None => None
              case Some(more) => Some(Read(Member(key.value, v.value, more.value), more.rest))
            else None
  }

  // ---------- what is written is read back ----------

  lemma {:induction false} CharReadBack(c: char, x: string)
    ensures ReadChar(Escape(c) + x) == Some(Read(c, x))
  {
    var s := Escape(c) + x;
    assert s[|Escape(c)|..] == x;
    if |Escape(c)| == 6 {
      assert s[2..][0] == '0' && s[2..][1] == '0' && s[2..][2] == HexDigit(c as int / 16)
          && s[2..][3] == HexDigit(c as int % 16);
      ControlReadBack(c as int, s[2..]);
    }
  }

  lemma {:induction false} ControlReadBack(n: nat, s: string)
    requires n < 32 && |s| >= 4 && s[0] == s[1] == '0' && s[2] == HexDigit(n / 16) && s[3] == HexDigit(n % 16)
    ensures FourDigits(s) == Some(n as char)
  {
    assert HexValue(HexDigit(n / 16)) == Some(n / 16) && HexValue(HexDigit(n % 16)) == Some(n % 16);
  }

  lemma {:induction false} CharsReadBack(t: string, x: string)
    ensures ReadChars(EscapeAll(t) + ("\"" + x)) == Some(Read(t, x))
  {
    if t == "" {
      assert EscapeAll(t) + ("\"" + x) == "\"" + x && ("\"" + x)[1..] == x;
    } else {
      EscapeStep(t, x);
      CharReadBack(t[0], EscapeAll(t[1..]) + ("\"" + x));
      CharsReadBack(t[1..], x);
      assert t == [t[0]] + t[1..];
    }
  }

  lemma {:induction false} FirstOf(n: string, x: string)
    requires n != ""
    ensures (n + x)[0] == n[0] && (n + x)[1..] == n[1..] + x && n == [n[0]] + n[1..]
  {
  }

  lemma {:induction false} NumberReadBack(n: string, x: string)
    requires (forall i | 0 <= i < |n| :: IsNumChar(n[i])) && Stops(x)
    ensures NumberOf(n + x) == n
  {
    if n == "" {
      assert n + x == x;
    } else {
      FirstOf(n, x);
      NumberReadBack(n[1..], x);
      assert IsNumChar(n[0]) && NumberOf(n + x) == [n[0]] + NumberOf(n[1..] + x);
    }
  }

  /** A text that begins with one character, and what follows it. */
  lemma {:induction false} AfterFirst(c: char, a: string, b: string, x: string)
    ensures [c] + a + b + x == [c] + (a + (b + x)) && ([c] + (a + (b + x)))[1..] == a + (b + x)
  {
  }

  lemma WordReadBack(word: string, v: Json, x: string)
    requires word != ""
    ensures (word + x)[0] == word[0] && ReadWord(word + x, word, v) == Some(Read(v, x))
  {
    assert (word + x)[..|word|] == word && (word + x)[|word|..] == x;
  }

  lemma {:induction false} DigitsReadBack(text: NumText, x: string)
    requires Stops(x)
    ensures IsNumChar((text + x)[0]) && ReadNumber(text + x) == Some(Read(Num(text), x))
  {
    NumberReadBack(text, x);
    assert (text + x)[0] == text[0] && (text + x)[|text|..] == x;
  }

  lemma {:induction false} NullReadBack(x: string)
    ensures ReadValue("null" + x) == Some(Read(Null, x))
  {
    WordReadBack("null", Null, x);
  }

  lemma {:induction false} BoolReadBack(b: bool, x: string)
    ensures ReadValue((if b then "true" else "false") + x) == Some(Read(Bool(b), x))
  {
    if b {
      WordReadBack("true", Bool(b), x);
    } else {
      WordReadBack("false", Bool(b), x);
    }
  }

  lemma {:induction false} NumReadBack(text: NumText, x: string)
    requires Stops(x)
    ensures ReadValue(text + x) == Some(Read(Num(text), x))
  {
    DigitsReadBack(text, x);
  }

  lemma {:induction false} StrReadBack(t: string, x: string)
    ensures ReadValue(Quote(t) + x) == Some(Read(Str(t), x))
  {
    KeyReadBack(t, x);
  }

  lemma EmptyReadBack(pair: string, x: string)
    requires |pair| == 2
    ensures (pair + x)[0] == pair[0] && (pair + x)[1] == pair[1] && (pair + x)[2..] == x
  {
  }

  lemma {:induction false} ArrReadBack(items: Items, x: string)
    requires items.Item? ==> ReadItems(Stringify(items.head) + (ItemsTail(items.tail) + x)) == Some(Read(items, x))
    ensures ReadValue(Stringify(Arr(items)) + x) == Some(Read(Arr(items), x))
  {
    if items.NoItems? {
      EmptyReadBack("[]", x);
    } else {
      FirstCharacter(items.head);
      AfterFirst('[', Stringify(items.head), ItemsTail(items.tail), x);
      assert (Stringify(Arr(items)) + x)[1] == Stringify(items.head)[0];
    }
  }

  lemma {:induction false} ObjReadBack(ms: Members, x: string)
    requires ms.Member? ==> ReadMembers(FromKey(ms, x)) == Some(Read(ms, x))
    ensures ReadValue(Stringify(Obj(ms)) + x) == Some(Read(Obj(ms), x))
  {
    if ms.NoMembers? {
      EmptyReadBack("{}", x);
    } else {
      MembersOnward("{", ms, x);
      assert (Stringify(Obj(ms)) + x)[1] == '"';
    }
  }

  /** Reading back what was written leaves what followed it: JSON text is read in one way, and to the same value. */
  lemma {:induction false} ValueReadBack(v: Json, x: string)
    requires Stops(x)
    ensures ReadValue(Stringify(v) + x) == Some(Read(v, x))
    decreases v, 1
  {
    match v
    case Arr(items) =>
      if items.Item? {
        ItemsReadBack(items, x);
      }
      ArrReadBack(items, x);
    case Obj(ms) =>
      if ms.Member? {
        MembersReadBack(ms, x);
      }
      ObjReadBack(ms, x);
    case Null => NullReadBack(x);
    case Bool(b) => BoolReadBack(b, x);
    case Num(text) => NumReadBack(text, x);
    case Str(t) => StrReadBack(t, x);
  }

  lemma {:induction false} ItemsReadBack(items: Items, x: string)
    requires items.Item?
    ensures ReadItems(Stringify(items.head) + (ItemsTail(items.tail) + x)) == Some(Read(items, x))
    decreases items, 0
  {
    var t := items.tail;
    var rest := ItemsTail(t) + x;
    assert rest[0] == ItemsTail(t)[0];
    ValueReadBack(items.head, rest);
    if t.NoItems? {
      assert rest[..1] == "]" && rest[1..] == x;
    } else {
      ItemsReadBack(t, x);
      AfterFirst(',', Stringify(t.head), ItemsTail(t.tail), x);
      assert rest[..1] == ",";
    }
  }

  /** The text of an object from its first key on, before what follows the object. */
  function FromKey(ms: Members, x: string): string
    requires ms.Member?
  {
    Quote(ms.key) + (":" + (Stringify(ms.value) + (MembersTail(ms.rest) + x)))
  }

  lemma {:induction false} MembersOnward(lead: string, ms: Members, x: string)
    requires ms.Member? && |lead| == 1
    ensures var s := lead + Quote(ms.key) + ":" + Stringify(ms.value) + MembersTail(ms.rest) + x;
            s[..1] == lead && s[1..] == FromKey(ms, x) && FromKey(ms, x)[0] == '"'
  {
    Regroup6(lead, Quote(ms.key), ":", Stringify(ms.value), MembersTail(ms.rest), x);
    assert (lead + FromKey(ms, x))[1..] == FromKey(ms, x);
    assert Quote(ms.key)[0] == '"';
  }

  lemma {:induction false} KeyReadBack(key: string, x: string)
    ensures StartsWith(Quote(key) + x, "\"") && ReadChars((Quote(key) + x)[1..]) == Some(Read(key, x))
  {
    var s := Quote(key) + x;
    assert s == "\"" + (EscapeAll(key) + ("\"" + x)) && s[..1] == "\"" && s[1..] == EscapeAll(key) + ("\"" + x);
    CharsReadBack(key, x);
  }

  lemma {:induction false} MembersReadBack(ms: Members, x: string)
    requires ms.Member?
    ensures ReadMembers(FromKey(ms, x)) == Some(Read(ms, x))
    decreases ms, 0
  {
    var after := MembersTail(ms.rest) + x;
    var value := Stringify(ms.value) + after;
    KeyReadBack(ms.key, ":" + value);
    assert (":" + value)[..1] == ":" && (":" + value)[1..] == value;
    assert after[0] == MembersTail(ms.rest)[0];
    ValueReadBack(ms.value, after);
    if ms.rest.NoMembers? {
      assert after[..1] == "}" && after[1..] == x;
    } else {
      MembersReadBack(ms.rest, x);
      MembersOnward(",", ms.rest, x);
    }
  }

  /** Every value is read back from its text, whole. */
  lemma {:induction false} JsonRoundTrip(v: Json)
    ensures ReadValue(Stringify(v)) == Some(Read(v, ""))
  {
    assert Stringify(v) + "" == Stringify(v);
    ValueReadBack(v, "");
  }
}
