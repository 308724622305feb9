/** KNOLL's eight virtual laws and the duty vocabulary they rest on. */
module Laws {
  import opened Text
  import opened Json
  import opened Schema

  datatype DutyClass = GOVERNANCE | EXECUTION_DUTY | CREATION

  predicate IsTriad(r: AgentRole) { r.HOPE? || r.VISION? || r.DREAM? }

  function RoleDuty(r: AgentRole): DutyClass
    requires IsTriad(r)
  {
    match r case HOPE => GOVERNANCE case VISION => EXECUTION_DUTY case DREAM => CREATION
  }

  function Forbidden(r: AgentRole): set<DutyClass>
    requires IsTriad(r)
  {
    match r
    case HOPE => {EXECUTION_DUTY, CREATION}
    case VISION => {GOVERNANCE, CREATION}
    case DREAM => {GOVERNANCE, EXECUTION_DUTY}
  }

  /** `asDutyClass`. */
  function AsDuty(v: Option<Json>): Option<DutyClass> {
    if v == Some(Str("GOVERNANCE")) then Some(GOVERNANCE)
    else if v == Some(Str("EXECUTION")) then Some(EXECUTION_DUTY)
    else if v == Some(Str("CREATION")) then Some(CREATION)
    else None
  }

  function DutyForIntentKind(v: Option<Json>): Option<DutyClass> {
    if v == Some(Str("EXECUTE")) then Some(EXECUTION_DUTY)
    else if v == Some(Str("SIMULATE")) then Some(CREATION)
    else if v == Some(Str("QUERY")) || v == Some(Str("CLARIFY")) || v == Some(Str("DOCUMENT")) then Some(GOVERNANCE)
    else None
  }

  function Field(data: Json, key: string): Option<Json> {
    if data.Obj? then Get(data.members, key) else None
  }

  /** The duty a packet asks of its destination: `duty`, else `requestedDuty`, else by `kind`. */
  function RequestedDuty(data: Json): Option<DutyClass> {
    var explicit := AsDuty(Field(data, "duty"));
    var requested := AsDuty(Field(data, "requestedDuty"));
    if explicit.Some? then explicit else if requested.Some? then requested else DutyForIntentKind(Field(data, "kind"))
  }

  /** Every string inside a value, in enumeration order. */
  function CollectStrings(v: Json): seq<string> {
    match v
    case Str(s) => [s]
    case Arr(items) => CollectItems(items)
    case Obj(ms) => CollectMembers(ms)
    case _ => []
  }

  function CollectItems(items: Items): seq<string> {
    match items case NoItems => [] case Item(h, t) => CollectStrings(h) + CollectItems(t)
  }

  function CollectMembers(ms: Members): seq<string> {
    match ms case NoMembers => [] case Member(_, v, rest) => CollectStrings(v) + CollectMembers(rest)
  }

  /** `strings.join(' \n ')`. */
  function JoinLines(ss: seq<string>): string {
    if ss == [] then "" else if |ss| == 1 then ss[0] else ss[0] + " \n " + JoinLines(ss[1..])
  }

  function Haystack(p: RoutingPacket): string {
    JoinLines([p.payload.intent] + CollectStrings(p.payload.data))
  }

  predicate IsLowerHex(c: char) { IsDigit(c) || 'a' <= c <= 'f' }

  /** `/^knoll_[a-f0-9]{32}$/`. */
  predicate WellFormedToken(t: string) {
    |t| == 38 && t[..6] == "knoll_" && forall i | 6 <= i < 38 :: IsLowerHex(t[i])
  }

  /** Whether some malicious-intent pattern matches a text; the patterns themselves are a parameter. */
  type Malicious = string -> bool

  const VIRTUAL_LAWS: seq<Law> :=
    [TokenWellFormed, ValidEndpoints, NoDirectDreamVision, NoKnollForgery,
     HopeCannotCommand, NoMaliciousIntent, NoCrossTenant, PrimaryTriadDuty]

  /** One law's verdict on a packet; `sourceTenant` is the authenticated tenant of the caller, if known. */
  predicate Passes(malicious: Malicious, law: Law, p: RoutingPacket, sourceTenant: Option<string>) {
    var src, dst := p.header.source, p.header.destination;
    match law
    case TokenWellFormed => WellFormedToken(p.security.knollToken)
    case ValidEndpoints => IsRole(src) && IsRole(dst) && src != dst
    case NoDirectDreamVision => !(src.DREAM? && dst.VISION?) && !(src.VISION? && dst.DREAM?)
    case NoKnollForgery => !src.KNOLL?
    case HopeCannotCommand => !(src.HOPE? && (dst.VISION? || dst.DREAM?))
    case NoMaliciousIntent => !malicious(Haystack(p))
    case NoCrossTenant =>
      p.header.tenantId.None? || p.header.tenantId.value == "" || sourceTenant.None? || sourceTenant.value == ""
      || p.header.tenantId.value == sourceTenant.value
    case PrimaryTriadDuty =>
      !IsTriad(dst) || RequestedDuty(p.payload.data).None? || RequestedDuty(p.payload.data).value !in Forbidden(dst)
  }

  /** The first law a packet breaks, if any. */
  method FirstBroken(malicious: Malicious, p: RoutingPacket, sourceTenant: Option<string>) returns (broken: Option<Law>)
    ensures broken == FirstBrokenFrom(malicious, p, sourceTenant, 0)
  {
    var i := 0;
    while i < |VIRTUAL_LAWS|
      invariant 0 <= i <= |VIRTUAL_LAWS|
      invariant FirstBrokenFrom(malicious, p, sourceTenant, 0) == FirstBrokenFrom(malicious, p, sourceTenant, i)
    {
      if !Passes(malicious, VIRTUAL_LAWS[i], p, sourceTenant) {
        return Some(VIRTUAL_LAWS[i]);
      }
      i := i + 1;
    }
    broken := None;
  }

  function FirstBrokenFrom(malicious: Malicious, p: RoutingPacket, sourceTenant: Option<string>, i: nat): Option<Law>
    requires i <= |VIRTUAL_LAWS|
    decreases |VIRTUAL_LAWS| - i
  {
    if i == |VIRTUAL_LAWS| then None
    else if !Passes(malicious, VIRTUAL_LAWS[i], p, sourceTenant) then Some(VIRTUAL_LAWS[i])
    else FirstBrokenFrom(malicious, p, sourceTenant, i + 1)
  }

  /** A well-formed token is the prefix and 32 lower-case hexadecimal digits. */
  lemma {:induction false} TokenTells(t: string)
    ensures WellFormedToken(t)
            <==> exists digits :: t == "knoll_" + digits && |digits| == 32
                                  && forall i | 0 <= i < 32 :: digits[i] in "0123456789abcdef"
  {
    forall c ensures IsLowerHex(c) <==> c in "0123456789abcdef" {
      HexDigits(c);
    }
    if WellFormedToken(t) {
      assert t == "knoll_" + t[6..];
    }
  }

  lemma HexDigits(c: char)
    ensures IsLowerHex(c) <==> c in "0123456789abcdef"
  {
    var s := "0123456789abcdef";
    assert |s| == 16 && s[0] == '0' && s[9] == '9' && s[10] == 'a' && s[15] == 'f';
    if IsLowerHex(c) {
      var i := if c <= '9' then c as int - '0' as int else c as int - 'a' as int + 10;
      assert s[i] == c;
    }
  }

  /** The twelve directed routes the laws leave open. */
  const OPEN_ROUTES: set<(AgentRole, AgentRole)> := {
    (HOPE, APEX), (HOPE, KNOLL),
    (DREAM, HOPE), (DREAM, APEX), (DREAM, KNOLL),
    (VISION, HOPE), (VISION, APEX), (VISION, KNOLL),
    (APEX, HOPE), (APEX, DREAM), (APEX, VISION), (APEX, KNOLL)
  }

  /** A declared duty is the destination's own. */
  predicate DutyRespected(p: RoutingPacket) {
    var dst, duty := p.header.destination, RequestedDuty(p.payload.data);
    IsTriad(dst) && duty.Some? ==> duty.value == RoleDuty(dst)
  }

  /** Whose duty each word names, and whose each kind of intent asks for. */
  const OWNER_OF_DUTY: map<string, AgentRole> := map["GOVERNANCE" := HOPE, "EXECUTION" := VISION, "CREATION" := DREAM]
  const OWNER_OF_KIND: map<string, AgentRole> :=
    map["QUERY" := HOPE, "CLARIFY" := HOPE, "DOCUMENT" := HOPE, "EXECUTE" := VISION, "SIMULATE" := DREAM]

  /** Whom the word under a key names, if it is one of a table's words. */
  function Named(owners: map<string, AgentRole>, data: Json, key: string): Option<AgentRole> {
    if data.Obj? && Get(data.members, key).Some? && Get(data.members, key).value.Str?
       && Get(data.members, key).value.s in owners
    then Some(owners[Get(data.members, key).value.s]) else None
  }

  /** Whose duty a packet asks for: the first of its three keys that names one decides. */
  function DutyOwner(data: Json): Option<AgentRole> {
    if Named(OWNER_OF_DUTY, data, "duty").Some? then Named(OWNER_OF_DUTY, data, "duty")
    else if Named(OWNER_OF_DUTY, data, "requestedDuty").Some? then Named(OWNER_OF_DUTY, data, "requestedDuty")
    else Named(OWNER_OF_KIND, data, "kind")
  }

  lemma {:induction false} DutyNamed(data: Json, key: string)
    ensures var duty, owner := AsDuty(Field(data, key)), Named(OWNER_OF_DUTY, data, key);
            && (duty.None? <==> owner.None?)
            && (owner.Some? ==> IsTriad(owner.value) && RoleDuty(owner.value) == duty.value)
  {
    assert |"GOVERNANCE"| == 10 && |"EXECUTION"| == 9 && |"CREATION"| == 8;
  }

  lemma {:induction false} KindNamed(data: Json, key: string)
    ensures var duty, owner := DutyForIntentKind(Field(data, key)), Named(OWNER_OF_KIND, data, key);
            && (duty.None? <==> owner.None?)
            && (owner.Some? ==> IsTriad(owner.value) && RoleDuty(owner.value) == duty.value)
  {
    assert "QUERY"[0] == 'Q' && "CLARIFY"[0] == 'C' && "DOCUMENT"[0] == 'D' && "EXECUTE"[0] == 'E'
        && "SIMULATE"[0] == 'S';
  }

  /** A packet keeps to duty if and only if its destination is outside the triad or owns the duty asked for, if any. */
  lemma {:induction false} DutyIsItsOwners(p: RoutingPacket)
    ensures DutyRespected(p) <==>
            !IsTriad(p.header.destination) || DutyOwner(p.payload.data).None?
            || DutyOwner(p.payload.data).value == p.header.destination
  {
    DutyNamed(p.payload.data, "duty");
    DutyNamed(p.payload.data, "requestedDuty");
    KindNamed(p.payload.data, "kind");
  }

  /** Two tenants are compared only when both are known. */
  ghost predicate TenantsAgree(p: RoutingPacket, sourceTenant: Option<string>) {
    forall a, b | p.header.tenantId == Some(a) && sourceTenant == Some(b) && a != "" && b != "" :: a == b
  }

  /**
   A packet breaks no law exactly when its token is well formed, its route is one of the open ones, its
   text is not malicious, it crosses no tenant boundary and it asks its destination only for that
   destination's own duty.
   */
  lemma {:induction false} LawfulIff(malicious: Malicious, p: RoutingPacket, sourceTenant: Option<string>)
    ensures FirstBrokenFrom(malicious, p, sourceTenant, 0).None? <==>
            && WellFormedToken(p.security.knollToken)
            && (p.header.source, p.header.destination) in OPEN_ROUTES
            && !malicious(Haystack(p)) && TenantsAgree(p, sourceTenant) && DutyRespected(p)
  {
    NoneIffAllPass(malicious, p, sourceTenant, 0);
    RoutesExact(malicious, p, sourceTenant);
    assert Passes(malicious, NoCrossTenant, p, sourceTenant) <==> TenantsAgree(p, sourceTenant);
    assert Passes(malicious, PrimaryTriadDuty, p, sourceTenant) <==> DutyRespected(p);
    assert (forall law: Law :: Passes(malicious, law, p, sourceTenant)) <==>
           && Passes(malicious, TokenWellFormed, p, sourceTenant) && Passes(malicious, ValidEndpoints, p, sourceTenant)
           && Passes(malicious, NoDirectDreamVision, p, sourceTenant)
           && Passes(malicious, NoKnollForgery, p, sourceTenant)
           && Passes(malicious, HopeCannotCommand, p, sourceTenant)
           && Passes(malicious, NoMaliciousIntent, p, sourceTenant)
           && Passes(malicious, NoCrossTenant, p, sourceTenant) && Passes(malicious, PrimaryTriadDuty, p, sourceTenant);
  }

  lemma {:induction false} NoneIffAllPass(malicious: Malicious, p: RoutingPacket, sourceTenant: Option<string>, i: nat)
    requires i <= |VIRTUAL_LAWS|
    ensures FirstBrokenFrom(malicious, p, sourceTenant, i).None?
            <==> forall k | i <= k < |VIRTUAL_LAWS| :: Passes(malicious, VIRTUAL_LAWS[k], p, sourceTenant)
    ensures i == 0 ==> (FirstBrokenFrom(malicious, p, sourceTenant, i).None?
            <==> forall law: Law :: Passes(malicious, law, p, sourceTenant))
    decreases |VIRTUAL_LAWS| - i
  {
    if i < |VIRTUAL_LAWS| {
      NoneIffAllPass(malicious, p, sourceTenant, i + 1);
    }
    if i == 0 {
      assert VIRTUAL_LAWS[0] == TokenWellFormed && VIRTUAL_LAWS[1] == ValidEndpoints
          && VIRTUAL_LAWS[2] == NoDirectDreamVision;
      assert VIRTUAL_LAWS[3] == NoKnollForgery && VIRTUAL_LAWS[4] == HopeCannotCommand
          && VIRTUAL_LAWS[5] == NoMaliciousIntent;
      assert VIRTUAL_LAWS[6] == NoCrossTenant && VIRTUAL_LAWS[7] == PrimaryTriadDuty;
    }
  }

  lemma {:induction false} RoutesExact(malicious: Malicious, p: RoutingPacket, sourceTenant: Option<string>)
    ensures (p.header.source, p.header.destination) in OPEN_ROUTES <==>
            && Passes(malicious, ValidEndpoints, p, sourceTenant)
            && Passes(malicious, NoDirectDreamVision, p, sourceTenant)
            && Passes(malicious, NoKnollForgery, p, sourceTenant)
            && Passes(malicious, HopeCannotCommand, p, sourceTenant)
  {
  }

  /** Inside the triad the laws let traffic flow only upward, to HOPE from DREAM or VISION. */
  lemma {:induction false} TriadTrafficFlowsUp(a: AgentRole, b: AgentRole)
    requires IsTriad(a) && IsTriad(b)
    ensures (a, b) in OPEN_ROUTES <==> b.HOPE? && !a.HOPE?
  {
  }
}
