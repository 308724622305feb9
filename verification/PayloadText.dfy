/** Which texts the malicious-intent law looks at: every string of a packet, found by the path that leads to it. */
module PayloadText {
  import opened Text
  import opened Json
  import opened Schema
  import opened Laws

  /** One step into a value: to an element of an array, or to the value of an object's key. */
  datatype Access = Index(n: nat) | Key(name: string)

  type Path = seq<Access>

  function ItemAt(items: Items, n: nat): Option<Json> {
    match items
    case NoItems => None
    case Item(h, t) => if n == 0 then Some(h) else ItemAt(t, n - 1)
  }

  function Child(v: Json, step: Access): Option<Json> {
    match step
    case Index(n) => if v.Arr? then ItemAt(v.items, n) else None
    case Key(name) => if v.Obj? then Get(v.members, name) else None
  }

  /** What a path leads to, if anything. */
  function At(v: Json, path: Path): Option<Json>
    decreases |path|
  {
    if path == [] then Some(v)
    else
      match Child(v, path[0])
      case None => None
      case Some(w) => At(w, path[1..])
  }

  /** Some path leads to this string. */
  ghost predicate Contains(v: Json, s: string) {
    exists path :: At(v, path) == Some(Str(s))
  }

  /** Of two keys of an object, the first comes earlier. */
  predicate KeyBefore(ms: Members, a: string, b: string) {
    ms.Member? && (if ms.key == a then b in Keys(ms.rest) else KeyBefore(ms.rest, a, b))
  }

  /** Of two paths into a value, the first leads to what is enumerated earlier. */
  predicate PathBefore(v: Json, p: Path, q: Path)
    decreases |p|, 1
  {
    match v
    case Arr(items) => ItemBefore(items, 0, p, q)
    case Obj(ms) => MemberBefore(ms, p, q)
    case _ => false
  }

  /** The same of two paths into the elements of an array, the first of which has number `n`. */
  predicate ItemBefore(items: Items, n: nat, p: Path, q: Path)
    decreases |p|, 0
  {
    && p != [] && q != [] && p[0].Index? && q[0].Index? && n <= p[0].n <= q[0].n
    && (p[0].n == q[0].n ==>
          ItemAt(items, p[0].n - n).Some? && PathBefore(ItemAt(items, p[0].n - n).value, p[1..], q[1..]))
  }

  predicate MemberBefore(ms: Members, p: Path, q: Path)
    decreases |p|, 0
  {
    && p != [] && q != [] && p[0].Key? && q[0].Key?
    && (if p[0] == q[0] then Get(ms, p[0].name).Some? && PathBefore(Get(ms, p[0].name).value, p[1..], q[1..])
        else KeyBefore(ms, p[0].name, q[0].name))
  }

  // ---------- the collected strings, with their paths ----------

  function Under(step: Access, paths: seq<Path>): (r: seq<Path>)
    ensures |r| == |paths| && forall i | 0 <= i < |paths| :: r[i] == [step] + paths[i]
  {
    if paths == [] then [] else [[step] + paths[0]] + Under(step, paths[1..])
  }

  /** The paths that lead to strings, in enumeration order. */
  function Paths(v: Json): seq<Path> {
    match v
    case Str(_) => [[]]
    case Arr(items) => ItemPaths(items, 0)
    case Obj(ms) => MemberPaths(ms)
    case _ => []
  }

  /** Those into the elements of an array, the first of which has number `n`. */
  function ItemPaths(items: Items, n: nat): seq<Path> {
    match items case NoItems => [] case Item(h, t) => Under(Index(n), Paths(h)) + ItemPaths(t, n + 1)
  }

  function MemberPaths(ms: Members): seq<Path> {
    match ms case NoMembers => [] case Member(k, v, rest) => Under(Key(k), Paths(v)) + MemberPaths(rest)
  }

  /** Each path leads to the string that stands at its place in a list. */
  ghost predicate LeadTo(v: Json, paths: seq<Path>, strings: seq<string>) {
    |paths| == |strings| && forall i | 0 <= i < |paths| :: At(v, paths[i]) == Some(Str(strings[i]))
  }

  /** One path into the elements from the `n`-th on, and the string it leads to. */
  predicate IntoItem(items: Items, n: nat, path: Path, s: string) {
    && path != [] && path[0].Index? && path[0].n >= n && ItemAt(items, path[0].n - n).Some?
    && At(ItemAt(items, path[0].n - n).value, path[1..]) == Some(Str(s))
  }

  predicate IntoMember(ms: Members, path: Path, s: string) {
    && path != [] && path[0].Key? && Get(ms, path[0].name).Some?
    && At(Get(ms, path[0].name).value, path[1..]) == Some(Str(s))
  }

  lemma {:induction false} PathsLead(v: Json)
    requires Distinct(v)
    ensures LeadTo(v, Paths(v), CollectStrings(v))
    decreases v
  {
    match v
    case Arr(items) => ItemPathsLead(items, 0);
    case Obj(ms) => MemberPathsLead(ms);
    case _ =>
  }

  lemma {:induction false} ItemPathsLead(items: Items, n: nat)
    requires DistinctItems(items)
    ensures |ItemPaths(items, n)| == |CollectItems(items)|
    ensures forall i | 0 <= i < |ItemPaths(items, n)| ::
              IntoItem(items, n, ItemPaths(items, n)[i], CollectItems(items)[i])
    decreases items
  {
    if items.Item? {
      PathsLead(items.head);
      ItemPathsLead(items.tail, n + 1);
      forall i | 0 <= i < |ItemPaths(items, n)|
        ensures IntoItem(items, n, ItemPaths(items, n)[i], CollectItems(items)[i])
      {
        var k := |Paths(items.head)|;
        if i < k {
          assert ItemPaths(items, n)[i] == [Index(n)] + Paths(items.head)[i];
        } else {
          assert IntoItem(items.tail, n + 1, ItemPaths(items.tail, n + 1)[i - k], CollectItems(items.tail)[i - k]);
        }
      }
    }
  }

  lemma {:induction false} MemberPathsLead(ms: Members)
    requires DistinctMembers(ms)
    ensures |MemberPaths(ms)| == |CollectMembers(ms)|
    ensures forall i | 0 <= i < |MemberPaths(ms)| :: IntoMember(ms, MemberPaths(ms)[i], CollectMembers(ms)[i])
    decreases ms
  {
    if ms.Member? {
      PathsLead(ms.value);
      MemberPathsLead(ms.rest);
      forall i | 0 <= i < |MemberPaths(ms)| ensures IntoMember(ms, MemberPaths(ms)[i], CollectMembers(ms)[i]) {
        var k := |Paths(ms.value)|;
        if i < k {
          assert MemberPaths(ms)[i] == [Key(ms.key)] + Paths(ms.value)[i];
        } else {
          assert IntoMember(ms.rest, MemberPaths(ms.rest)[i - k], CollectMembers(ms.rest)[i - k]);
          GetKeys(ms.rest, MemberPaths(ms.rest)[i - k][0].name);
        }
      }
    }
  }

  /** Whatever a path leads to that is a string is collected, and its path is listed. */
  lemma {:induction false} FoundIsCollected(v: Json, path: Path, s: string)
    requires At(v, path) == Some(Str(s))
    ensures s in CollectStrings(v) && path in Paths(v)
    decreases v
  {
    match v
    case Str(_) => assert path == [];
    case Arr(items) => ItemIsCollected(items, 0, path, s);
    case Obj(ms) => MemberIsCollected(ms, path, s);
    case _ =>
  }

  lemma {:induction false} ItemIsCollected(items: Items, n: nat, path: Path, s: string)
    requires IntoItem(items, n, path, s)
    ensures s in CollectItems(items) && path in ItemPaths(items, n)
    decreases items
  {
    assert path == [path[0]] + path[1..];
    if path[0].n == n {
      FoundIsCollected(items.head, path[1..], s);
      var i :| 0 <= i < |Paths(items.head)| && Paths(items.head)[i] == path[1..];
      assert ItemPaths(items, n)[i] == path;
    } else {
      ItemIsCollected(items.tail, n + 1, path, s);
    }
  }

  lemma {:induction false} MemberIsCollected(ms: Members, path: Path, s: string)
    requires IntoMember(ms, path, s)
    ensures s in CollectMembers(ms) && path in MemberPaths(ms)
    decreases ms
  {
    assert path == [path[0]] + path[1..];
    if path[0].name == ms.key {
      FoundIsCollected(ms.value, path[1..], s);
      var i :| 0 <= i < |Paths(ms.value)| && Paths(ms.value)[i] == path[1..];
      assert MemberPaths(ms)[i] == path;
    } else {
      MemberIsCollected(ms.rest, path, s);
    }
  }

  // ---------- in enumeration order ----------

  ghost predicate Enumerated(v: Json, paths: seq<Path>) {
    forall i, j | 0 <= i < j < |paths| :: PathBefore(v, paths[i], paths[j])
  }

  lemma {:induction false} PathsInOrder(v: Json)
    requires Distinct(v)
    ensures Enumerated(v, Paths(v))
    decreases v
  {
    match v
    case Arr(items) => ItemPathsInOrder(items, 0);
    case Obj(ms) => MemberPathsInOrder(ms);
    case _ =>
  }

  lemma {:induction false} ItemPathsInOrder(items: Items, n: nat)
    requires DistinctItems(items)
    ensures forall i, j | 0 <= i < j < |ItemPaths(items, n)| ::
              ItemBefore(items, n, ItemPaths(items, n)[i], ItemPaths(items, n)[j])
    decreases items
  {
    if items.Item? {
      var all, mine, rest := ItemPaths(items, n), Paths(items.head), ItemPaths(items.tail, n + 1);
      var k := |mine|;
      PathsInOrder(items.head);
      ItemPathsInOrder(items.tail, n + 1);
      ItemPathsLead(items.tail, n + 1);
      forall i, j | 0 <= i < j < |all| ensures ItemBefore(items, n, all[i], all[j]) {
        if j < k {
          assert all[i] == [Index(n)] + mine[i] && all[j] == [Index(n)] + mine[j];
          assert PathBefore(items.head, mine[i], mine[j]);
        } else {
          assert IntoItem(items.tail, n + 1, rest[j - k], CollectItems(items.tail)[j - k]);
          if i < k {
            assert all[i] == [Index(n)] + mine[i];
          } else {
            assert ItemBefore(items.tail, n + 1, rest[i - k], rest[j - k]);
          }
        }
      }
    }
  }

  lemma {:induction false} MemberPathsInOrder(ms: Members)
    requires DistinctMembers(ms)
    ensures forall i, j | 0 <= i < j < |MemberPaths(ms)| :: MemberBefore(ms, MemberPaths(ms)[i], MemberPaths(ms)[j])
    decreases ms
  {
    if ms.Member? {
      var all, mine, rest := MemberPaths(ms), Paths(ms.value), MemberPaths(ms.rest);
      var k := |mine|;
      PathsInOrder(ms.value);
      MemberPathsInOrder(ms.rest);
      MemberPathsLead(ms.rest);
      forall i, j | 0 <= i < j < |all| ensures MemberBefore(ms, all[i], all[j]) {
        if j < k {
          assert all[i] == [Key(ms.key)] + mine[i] && all[j] == [Key(ms.key)] + mine[j];
          assert PathBefore(ms.value, mine[i], mine[j]);
        } else {
          assert IntoMember(ms.rest, rest[j - k], CollectMembers(ms.rest)[j - k]);
          GetKeys(ms.rest, rest[j - k][0].name);
          if i < k {
            assert all[i] == [Key(ms.key)] + mine[i];
          } else {
            assert IntoMember(ms.rest, rest[i - k], CollectMembers(ms.rest)[i - k]);
            GetKeys(ms.rest, rest[i - k][0].name);
            assert MemberBefore(ms.rest, rest[i - k], rest[j - k]);
          }
        }
      }
    }
  }

  lemma {:induction false} CollectedIffContained(v: Json, s: string)
    requires Distinct(v)
    ensures s in CollectStrings(v) <==> Contains(v, s)
  {
    PathsLead(v);
    if s in CollectStrings(v) {
      var i :| 0 <= i < |CollectStrings(v)| && CollectStrings(v)[i] == s;
      assert At(v, Paths(v)[i]) == Some(Str(s));
    }
    if Contains(v, s) {
      var path :| At(v, path) == Some(Str(s));
      FoundIsCollected(v, path, s);
    }
  }

  /**
   The strings collected from a value are those that some path leads to, once for each path, in the order in which a
   walk through the value comes upon them; nothing else is collected, and no string is missed at any depth.
   */
  lemma {:induction false} CollectedByPath(v: Json) returns (paths: seq<Path>)
    requires Distinct(v)
    ensures LeadTo(v, paths, CollectStrings(v)) && Enumerated(v, paths)
    ensures forall path, s :: At(v, path) == Some(Str(s)) ==> path in paths
    ensures forall s :: s in CollectStrings(v) <==> Contains(v, s)
  {
    paths := Paths(v);
    PathsLead(v);
    PathsInOrder(v);
    forall path, s | At(v, path) == Some(Str(s)) ensures path in paths {
      FoundIsCollected(v, path, s);
    }
    forall s ensures s in CollectStrings(v) <==> Contains(v, s) {
      CollectedIffContained(v, s);
    }
  }

  // ---------- the text the law looks at ----------

  ghost predicate OccursIn(part: string, whole: string) {
    exists before, after :: whole == before + part + after
  }

  lemma {:induction false} PartOccurs(ss: seq<string>, i: nat)
    requires i < |ss|
    ensures OccursIn(ss[i], JoinLines(ss))
  {
    if |ss| == 1 {
      assert JoinLines(ss) == "" + ss[0] + "";
    } else if i == 0 {
      assert JoinLines(ss) == "" + ss[0] + (" \n " + JoinLines(ss[1..]));
    } else {
      PartOccurs(ss[1..], i - 1);
      var before, after :| JoinLines(ss[1..]) == before + ss[i] + after;
      assert JoinLines(ss) == (ss[0] + " \n " + before) + ss[i] + after;
    }
  }

  /** A packet's own text: its intent, and every string at any depth of its data. */
  ghost predicate Says(p: RoutingPacket, s: string) {
    s == p.payload.intent || Contains(p.payload.data, s)
  }

  /** Everything a packet says stands, unbroken, in the text the malicious-intent law looks at. */
  lemma {:induction false} SaidIsSeen(p: RoutingPacket, s: string)
    requires Says(p, s)
    ensures OccursIn(s, Haystack(p))
  {
    var all := [p.payload.intent] + CollectStrings(p.payload.data);
    if s == p.payload.intent {
      PartOccurs(all, 0);
    } else {
      var path :| At(p.payload.data, path) == Some(Str(s));
      FoundIsCollected(p.payload.data, path, s);
      var i :| 0 <= i < |CollectStrings(p.payload.data)| && CollectStrings(p.payload.data)[i] == s;
      assert all[i + 1] == s;
      PartOccurs(all, i + 1);
    }
  }

  /** A match stays one whatever text is put around it. */
  ghost predicate Embeds(malicious: Malicious) {
    forall before, s, after :: malicious(s) ==> malicious(before + s + after)
  }

  /** No match reaches across the separator between two parts. */
  ghost predicate Separates(malicious: Malicious) {
    forall a, b :: malicious(a + " \n " + b) ==> malicious(a) || malicious(b)
  }

  ghost predicate SaysMalice(malicious: Malicious, p: RoutingPacket) {
    exists s :: Says(p, s) && malicious(s)
  }

  lemma {:induction false} MaliceIsSeen(malicious: Malicious, p: RoutingPacket)
    requires Embeds(malicious) && SaysMalice(malicious, p)
    ensures malicious(Haystack(p))
  {
    var s :| Says(p, s) && malicious(s);
    SaidIsSeen(p, s);
    var before, after :| Haystack(p) == before + s + after;
  }

  lemma {:induction false} SomePartMatches(malicious: Malicious, ss: seq<string>)
    requires Separates(malicious) && ss != [] && malicious(JoinLines(ss))
    ensures exists i :: 0 <= i < |ss| && malicious(ss[i])
  {
    if |ss| == 1 {
      assert malicious(ss[0]);
    } else if !malicious(ss[0]) {
      SomePartMatches(malicious, ss[1..]);
      var i :| 0 <= i < |ss[1..]| && malicious(ss[1..][i]);
      assert malicious(ss[i + 1]);
    }
  }

  /**
   When no match reaches across a separator, the law refuses a packet if and only if its intent, or some string at some
   depth of its data, matches by itself.
   */
  lemma {:induction false} SeenIffSaid(malicious: Malicious, p: RoutingPacket)
    requires Embeds(malicious) && Separates(malicious) && Distinct(p.payload.data)
    ensures malicious(Haystack(p)) <==> SaysMalice(malicious, p)
  {
    if malicious(Haystack(p)) {
      var all := [p.payload.intent] + CollectStrings(p.payload.data);
      SomePartMatches(malicious, all);
      var i :| 0 <= i < |all| && malicious(all[i]);
      if i > 0 {
        assert all[i] == CollectStrings(p.payload.data)[i - 1];
        CollectedIffContained(p.payload.data, all[i]);
      }
      assert Says(p, all[i]);
    } else if SaysMalice(malicious, p) {
      MaliceIsSeen(malicious, p);
    }
  }

  /** The eight laws, with the sixth in terms of what a packet says. */
  lemma {:induction false} HarmlessIff(malicious: Malicious, p: RoutingPacket, sourceTenant: Option<string>)
    requires Embeds(malicious)
    ensures FirstBrokenFrom(malicious, p, sourceTenant, 0).None? ==> !SaysMalice(malicious, p)
    ensures Separates(malicious) && Distinct(p.payload.data) ==>
              (FirstBrokenFrom(malicious, p, sourceTenant, 0).None? <==>
                 && WellFormedToken(p.security.knollToken)
                 && (p.header.source, p.header.destination) in OPEN_ROUTES
                 && !SaysMalice(malicious, p) && TenantsAgree(p, sourceTenant) && DutyRespected(p))
  {
    LawfulIff(malicious, p, sourceTenant);
    if SaysMalice(malicious, p) {
      MaliceIsSeen(malicious, p);
    }
    if Separates(malicious) && Distinct(p.payload.data) {
      SeenIffSaid(malicious, p);
    }
  }
}
