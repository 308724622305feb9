/** The sovereign authority: directives, the Former Primes' countermand, and succession. */
module Sovereign {
  import opened Text
  import opened Json
  import opened DesignatedLedger

  datatype Prime = Prime(id: string, name: string, since: int)

  datatype Former = Former(prime: Prime, steppedDownAt: int)

  datatype DirectiveStatus = ACTIVE | COUNTERMANDED(formerId: string, at: int, reason: string)

  datatype Directive = Directive(id: string, issuedBy: string, command: string, data: Members, issuedAt: int,
                                 anomalous: bool, critical: bool, status: DirectiveStatus)

  /** The authority's fields, and the history of the ledger it writes to. */
  datatype Realm = Realm(acting: Prime, formers: map<string, Former>, directives: map<string, Directive>,
                         order: seq<string>, serial: nat, records: seq<RecordInput>)

  /** A command, its flags, and the clock readings issuing it takes. */
  datatype Decree = Decree(command: string, data: Members, issuedAt: int, anomalous: bool, critical: bool,
                           criticalAt: int, anomalousAt: int)

  datatype Answer = Standing(directive: Directive) | UnauthorizedCountermand | UnknownDirective

  function DirectiveId(n: nat): string { SerialId("dir_", n) }

  function NewDirective(r: Realm, d: Decree): Directive {
    Directive(DirectiveId(r.serial + 1), r.acting.id, d.command, d.data, d.issuedAt, d.anomalous, d.critical, ACTIVE)
  }

  function Detail(d: Directive): Members {
    Member("directiveId", Str(d.id), Member("data", Obj(d.data), NoMembers))
  }

  function CriticalRecord(d: Directive, at: int): RecordInput {
    RecordInput(CRITICAL_OOB_DECISION, "critical directive: " + d.command, d.issuedBy, Detail(d), at)
  }

  function AnomalousRecord(d: Directive, at: int): RecordInput {
    RecordInput(ANOMALOUS_COMMAND, "anomalous directive: " + d.command, d.issuedBy, Detail(d), at)
  }

  /** What issuing a directive records: first that it is critical, then that it is anomalous, if it is. */
  function FlagRecords(d: Directive, criticalAt: int, anomalousAt: int): seq<RecordInput> {
    (if d.critical then [CriticalRecord(d, criticalAt)] else [])
    + (if d.anomalous then [AnomalousRecord(d, anomalousAt)] else [])
  }

  /** A directive that is both critical and anomalous is recorded as critical first; one that is neither not at all. */
  lemma {:induction false} FlagsTell(d: Directive, criticalAt: int, anomalousAt: int)
    ensures var rs := FlagRecords(d, criticalAt, anomalousAt);
            && |rs| == (if d.critical then 1 else 0) + (if d.anomalous then 1 else 0)
            && (d.critical ==> rs[0].kind == CRITICAL_OOB_DECISION && rs[0].timestamp == criticalAt)
            && (d.anomalous ==> rs[|rs| - 1].kind == ANOMALOUS_COMMAND && rs[|rs| - 1].timestamp == anomalousAt)
            && forall i | 0 <= i < |rs| ::
                 && rs[i].actorId == d.issuedBy
                 && Get(rs[i].data, "directiveId") == Some(Str(d.id)) && Get(rs[i].data, "data") == Some(Obj(d.data))
  {
  }

  function Issued(r: Realm, d: Decree): Realm {
    var n := NewDirective(r, d);
    r.(directives := r.directives[n.id := n], order := r.order + [n.id], serial := r.serial + 1,
       records := r.records + FlagRecords(n, d.criticalAt, d.anomalousAt))
  }

  function CountermandRecord(d: Directive, formerId: string, reason: string, at: int): RecordInput {
    RecordInput(OVERRIDE, "Former Prime countermanded directive '" + d.id + "'", formerId,
                Member("directiveId", Str(d.id), Member("issuedBy", Str(d.issuedBy), Member("command", Str(d.command),
                Member("reason", Str(reason), NoMembers)))), at)
  }

  function Ruling(r: Realm, formerId: string, directiveId: string, reason: string, at: int): Answer {
    if formerId !in r.formers then UnauthorizedCountermand
    else if directiveId !in r.directives then UnknownDirective
    else if r.directives[directiveId].status != ACTIVE then Standing(r.directives[directiveId])
    else Standing(r.directives[directiveId].(status := COUNTERMANDED(formerId, at, reason)))
  }

  function Countermanded(r: Realm, formerId: string, directiveId: string, reason: string, at: int,
                         recordedAt: int): Realm {
    if formerId in r.formers && directiveId in r.directives && r.directives[directiveId].status == ACTIVE then
      var d := r.directives[directiveId];
      r.(directives := r.directives[directiveId := d.(status := COUNTERMANDED(formerId, at, reason))],
         records := r.records + [CountermandRecord(d, formerId, reason, recordedAt)])
    else r
  }

  function SuccessionRecord(from: string, to: string, at: int): RecordInput {
    RecordInput(CRITICAL_OOB_DECISION, "sovereign succession", to,
                Member("from", Str(from), Member("to", Str(to), NoMembers)), at)
  }

  function Succeeded(r: Realm, successor: Prime, steppedDownAt: int, recordedAt: int): Realm {
    r.(acting := successor, formers := r.formers[r.acting.id := Former(r.acting, steppedDownAt)],
       records := r.records + [SuccessionRecord(r.acting.id, successor.id, recordedAt)])
  }

  /** What the freeze bridge writes when a signed override token is used: it names no directive. */
  function FreezeOverrideRecord(issuedBy: string, action: string, reason: string, issuedAt: int, authority: string,
                                at: int): RecordInput {
    RecordInput(OVERRIDE, "sovereign " + action + " via Holloway override", issuedBy,
                Member("action", Str(action), Member("reason", Str(reason), Member("issuedAt", Int(issuedAt),
                Member("authority", Str(authority), NoMembers)))), at)
  }

  datatype Act =
    | Issue(decree: Decree)
    | Countermand(formerId: string, directiveId: string, reason: string, at: int, recordedAt: int)
    | Succeed(successor: Prime, steppedDownAt: int, recordedAt: int)
    | FreezeOverride(issuedBy: string, action: string, reason: string, issuedAt: int, authority: string,
                     recordedAt: int)

  function After(r: Realm, act: Act): Realm {
    match act
    case Issue(d) => Issued(r, d)
    case Countermand(f, id, reason, at, recordedAt) => Countermanded(r, f, id, reason, at, recordedAt)
    case Succeed(p, steppedDownAt, recordedAt) => Succeeded(r, p, steppedDownAt, recordedAt)
    case FreezeOverride(issuedBy, action, reason, issuedAt, authority, recordedAt) =>
      r.(records := r.records + [FreezeOverrideRecord(issuedBy, action, reason, issuedAt, authority, recordedAt)])
  }

  /** A run of steps, oldest first. */
  function Reign(r: Realm, steps: seq<Act>): Realm {
    if steps == [] then r else After(Reign(r, steps[..|steps| - 1]), steps[|steps| - 1])
  }

  /** An authority just constructed: any primes, any ledger, no directives yet. */
  predicate Fresh(r: Realm) { r.directives == map[] && r.order == [] && r.serial == 0 }

  /** Former Primes by id; the last of two with the same id is kept. */
  function Seeded(fs: seq<Former>): map<string, Former> {
    if fs == [] then map[] else Seeded(fs[..|fs| - 1])[fs[|fs| - 1].prime.id := fs[|fs| - 1]]
  }

  lemma {:induction false} SeededNext(fs: seq<Former>, f: Former)
    ensures Seeded(fs + [f]) == Seeded(fs)[f.prime.id := f]
  {
    assert (fs + [f])[..|fs|] == fs;
  }

  class SovereignAuthority {
    var acting: Prime
    var formers: map<string, Former>
    var directivesById: map<string, Directive>
    var order: seq<string>
    var seqNo: nat
    const ledger: DesignatedAuditLedger

    ghost predicate Valid()
      reads this, ledger
    {
      ledger.Valid() && Numbered(State())
    }

    ghost function State(): Realm
      reads this, ledger
    {
      Realm(acting, formers, directivesById, order, seqNo, ledger.history)
    }

    constructor (actingPrime: Prime, formerPrimes: seq<Former>, ledger: DesignatedAuditLedger)
      requires ledger.Valid()
      ensures Valid() && this.ledger == ledger && Fresh(State())
      ensures acting == actingPrime && formers == Seeded(formerPrimes)
    {
      acting, formers, directivesById, order, seqNo := actingPrime, map[], map[], [], 0;
      this.ledger := ledger;
      new;
      for i := 0 to |formerPrimes|
        invariant Fresh(State()) && acting == actingPrime && this.ledger == ledger && ledger.Valid()
        invariant formers == Seeded(formerPrimes[..i])
      {
        TakeNext(formerPrimes, i);
        SeededNext(formerPrimes[..i], formerPrimes[i]);
        formers := formers[formerPrimes[i].prime.id := formerPrimes[i]];
      }
      TakeAll(formerPrimes, |formerPrimes|);
    }

    method IssueDirective(d: Decree) returns (directive: Directive)
      requires Valid()
      modifies this, ledger
      ensures Valid() && State() == Issued(old(State()), d)
      ensures directive == NewDirective(old(State()), d) && directive.id !in old(directivesById)
    {
      IssueKeepsNumbers(State(), d);
      directive := File(d);
    }

    /** File a new directive and record its flags. */
    method File(d: Decree) returns (directive: Directive)
      requires ledger.Valid()
      modifies this, ledger
      ensures ledger.Valid() && State() == Issued(old(State()), d) && directive == NewDirective(old(State()), d)
    {
      seqNo := seqNo + 1;
      directive := Directive(DirectiveId(seqNo), acting.id, d.command, d.data, d.issuedAt, d.anomalous, d.critical,
                             ACTIVE);
      directivesById := directivesById[directive.id := directive];
      order := order + [directive.id];
      RecordFlags(directive, d.criticalAt, d.anomalousAt);
    }

    method RecordFlags(directive: Directive, criticalAt: int, anomalousAt: int)
      requires ledger.Valid()
      modifies ledger
      ensures ledger.Valid() && ledger.history == old(ledger.history) + FlagRecords(directive, criticalAt, anomalousAt)
    {
      if directive.critical {
        var _ := ledger.Record(CriticalRecord(directive, criticalAt));
      }
      if directive.anomalous {
        var _ := ledger.Record(AnomalousRecord(directive, anomalousAt));
      }
    }

    method CountermandDirective(formerId: string, directiveId: string, reason: string, at: int, recordedAt: int)
      returns (answer: Answer)
      requires Valid()
      modifies this, ledger
      ensures Valid() && State() == Countermanded(old(State()), formerId, directiveId, reason, at, recordedAt)
      ensures answer == Ruling(old(State()), formerId, directiveId, reason, at)
    {
      if formerId !in formers {
        return UnauthorizedCountermand;
      }
      if directiveId !in directivesById {
        return UnknownDirective;
      }
      var directive := directivesById[directiveId];
      if directive.status.COUNTERMANDED? {
        return Standing(directive);
      }
      CountermandKeepsNumbers(State(), formerId, directiveId, reason, at, recordedAt);
      var ruled := Strike(directive, formerId, reason, at, recordedAt);
      answer := Standing(ruled);
    }

    /** Mark a directive countermanded and record the override. */
    method Strike(directive: Directive, formerId: string, reason: string, at: int, recordedAt: int)
      returns (ruled: Directive)
      requires ledger.Valid()
      modifies this`directivesById, ledger
      ensures ruled == directive.(status := COUNTERMANDED(formerId, at, reason))
      ensures directivesById == old(directivesById)[directive.id := ruled]
      ensures ledger.Valid()
      ensures ledger.history == old(ledger.history) + [CountermandRecord(directive, formerId, reason, recordedAt)]
    {
      ruled := directive.(status := COUNTERMANDED(formerId, at, reason));
      directivesById := directivesById[directive.id := ruled];
      var _ := ledger.Record(CountermandRecord(directive, formerId, reason, recordedAt));
    }

    /** All directives, in issuance order. */
    method Directives() returns (ds: seq<Directive>)
      requires Valid()
      ensures ds == Listed(State())
    {
      ds := [];
      for i := 0 to |order|
        invariant ds == Listed(State())[..i]
      {
        TakeNext(Listed(State()), i);
        ds := ds + [directivesById[order[i]]];
      }
      TakeAll(Listed(State()), |order|);
    }

    method Succession(successor: Prime, steppedDownAt: int, recordedAt: int)
      requires Valid()
      modifies this, ledger
      ensures Valid() && State() == Succeeded(old(State()), successor, steppedDownAt, recordedAt)
    {
      var previousId := acting.id;
      formers := formers[previousId := Former(acting, steppedDownAt)];
      acting := successor;
      var _ := ledger.Record(SuccessionRecord(previousId, successor.id, recordedAt));
    }
  }

  // ---------- ids ----------

  /** Directive ids count up from 1 in issue order, and each names the directive filed under it. */
  ghost predicate Numbered(r: Realm) {
    && |r.order| == r.serial
    && (forall i | 0 <= i < |r.order| :: r.order[i] == DirectiveId(i + 1) && r.order[i] in r.directives)
    && (forall id | id in r.directives :: id in r.order && r.directives[id].id == id)
  }

  ghost function Listed(r: Realm): (ds: seq<Directive>)
    requires Numbered(r)
    ensures |ds| == |r.order| && forall i | 0 <= i < |ds| :: ds[i] == r.directives[r.order[i]]
  {
    seq(|r.order|, i requires 0 <= i < |r.order| => r.directives[r.order[i]])
  }

  lemma {:induction false} IssueKeepsNumbers(r: Realm, d: Decree)
    requires Numbered(r)
    ensures Numbered(Issued(r, d)) && NewDirective(r, d).id !in r.directives
  {
    var id := DirectiveId(r.serial + 1);
    if id in r.directives {
      var i :| 0 <= i < |r.order| && r.order[i] == id;
      SerialIdInjective("dir_", i + 1, r.serial + 1);
      assert false;
    }
    assert id in r.order + [id];
  }

  lemma {:induction false} CountermandKeepsNumbers(r: Realm, formerId: string, directiveId: string, reason: string,
                                                   at: int, recordedAt: int)
    requires Numbered(r)
    ensures Numbered(Countermanded(r, formerId, directiveId, reason, at, recordedAt))
  {
  }

  lemma {:induction false} ReignIsNumbered(r: Realm, steps: seq<Act>)
    requires Numbered(r)
    ensures Numbered(Reign(r, steps))
  {
    if steps != [] {
      var before, last := Reign(r, steps[..|steps| - 1]), steps[|steps| - 1];
      ReignIsNumbered(r, steps[..|steps| - 1]);
      match last
      case Issue(d) => IssueKeepsNumbers(before, d);
      case Countermand(f, id, reason, at, recordedAt) => CountermandKeepsNumbers(before, f, id, reason, at, recordedAt);
      case _ =>
    }
  }

  function Issues(steps: seq<Act>): nat {
    if steps == [] then 0 else Issues(steps[..|steps| - 1]) + if steps[|steps| - 1].Issue? then 1 else 0
  }

  /** The list of directives has one entry for each issue, in issue order, all ids distinct, and misses nothing. */
  lemma {:induction false} DirectivesAreTotal(r: Realm, steps: seq<Act>)
    requires Fresh(r)
    ensures var end := Reign(r, steps);
            && Numbered(end) && |Listed(end)| == Issues(steps)
            && (forall i, j | 0 <= i < j < |Listed(end)| :: Listed(end)[i].id != Listed(end)[j].id)
            && (forall id | id in end.directives :: end.directives[id] in Listed(end))
  {
    ReignIsNumbered(r, steps);
    SerialIsIssues(r, steps);
    var end := Reign(r, steps);
    forall i, j | 0 <= i < j < |Listed(end)| ensures Listed(end)[i].id != Listed(end)[j].id {
      if Listed(end)[i].id == Listed(end)[j].id {
        SerialIdInjective("dir_", i + 1, j + 1);
      }
    }
    forall id | id in end.directives ensures end.directives[id] in Listed(end) {
      var i :| 0 <= i < |end.order| && end.order[i] == id;
      assert Listed(end)[i] == end.directives[id];
    }
  }

  lemma {:induction false} SerialIsIssues(r: Realm, steps: seq<Act>)
    requires Fresh(r)
    ensures Reign(r, steps).serial == Issues(steps)
  {
    if steps != [] {
      SerialIsIssues(r, steps[..|steps| - 1]);
    }
  }

  // ---------- countermands ----------

  /** An override that names a directive: a countermand of it. */
  predicate Names(record: RecordInput, id: string) {
    record.kind == OVERRIDE && Get(record.data, "directiveId") == Some(Str(id))
  }

  function Naming(records: seq<RecordInput>, id: string): seq<RecordInput> {
    if records == [] then []
    else
      var last := records[|records| - 1];
      Naming(records[..|records| - 1], id) + if Names(last, id) then [last] else []
  }

  lemma {:induction false} NamingAppend(records: seq<RecordInput>, x: RecordInput, id: string)
    ensures Naming(records + [x], id) == Naming(records, id) + if Names(x, id) then [x] else []
  {
    assert (records + [x])[..|records|] == records;
  }

  /** The overrides that name a directive, with respect to how it stands. */
  ghost predicate Accounted(r: Realm, id: string, overrides: seq<RecordInput>) {
    if id in r.directives && r.directives[id].status.COUNTERMANDED? then
      var d := r.directives[id];
      && d.status.formerId in r.formers && |overrides| == 1
      && overrides[0] == CountermandRecord(d, d.status.formerId, d.status.reason, overrides[0].timestamp)
    else overrides == []
  }

  /** The records added to the ledger by a run. */
  function Added(r: Realm, steps: seq<Act>): (added: seq<RecordInput>)
    ensures Reign(r, steps).records == r.records + added
  {
    if steps == [] then []
    else
      var before := Reign(r, steps[..|steps| - 1]);
      Added(r, steps[..|steps| - 1]) + NewRecords(before, steps[|steps| - 1])
  }

  /** What one act records. */
  function NewRecords(r: Realm, act: Act): (added: seq<RecordInput>)
    ensures After(r, act).records == r.records + added
  {
    match act
    case Issue(d) =>
      var n := NewDirective(r, d);
      FlagRecords(n, d.criticalAt, d.anomalousAt)
    case Countermand(f, id, reason, at, recordedAt) =>
      if f in r.formers && id in r.directives && r.directives[id].status == ACTIVE
      then [CountermandRecord(r.directives[id], f, reason, recordedAt)] else []
    case Succeed(p, steppedDownAt, recordedAt) => [SuccessionRecord(r.acting.id, p.id, recordedAt)]
    case FreezeOverride(issuedBy, action, reason, issuedAt, authority, recordedAt) =>
      [FreezeOverrideRecord(issuedBy, action, reason, issuedAt, authority, recordedAt)]
  }

  lemma {:induction false} NamingMore(a: seq<RecordInput>, b: seq<RecordInput>, id: string)
    ensures Naming(a + b, id) == Naming(a, id) + Naming(b, id)
  {
    if b == [] {
      assert a + b == a;
    } else {
      var front, last := b[..|b| - 1], b[|b| - 1];
      NamingMore(a, front, id);
      NamingAppend(a + front, last, id);
      FrontLast(a, b);
      Reassociate(Naming(a, id), Naming(front, id), if Names(last, id) then [last] else []);
    }
  }

  lemma FrontLast<T>(a: seq<T>, b: seq<T>)
    requires b != []
    ensures a + b == a + b[..|b| - 1] + [b[|b| - 1]]
  {
  }

  lemma {:induction false} NamingNone(records: seq<RecordInput>, id: string)
    requires forall x | x in records :: !Names(x, id)
    ensures Naming(records, id) == []
  {
    if records != [] {
      assert records[|records| - 1] in records;
      NamingNone(records[..|records| - 1], id);
    }
  }

  lemma {:induction false} FreezeOverrideNamesNone(x: Act, id: string)
    requires x.FreezeOverride?
    ensures !Names(FreezeOverrideRecord(x.issuedBy, x.action, x.reason, x.issuedAt, x.authority, x.recordedAt), id)
  {
    var fourth := Member("authority", Str(x.authority), NoMembers);
    var third := Member("issuedAt", Int(x.issuedAt), fourth);
    assert Get(fourth, "directiveId") == None;
    assert Get(third, "directiveId") == None;
    assert Get(Member("reason", Str(x.reason), third), "directiveId") == None;
  }

  lemma {:induction false} NewNaming(r: Realm, act: Act, id: string)
    requires Numbered(r)
    ensures Naming(NewRecords(r, act), id)
         == if act.Countermand? && act.directiveId == id then NewRecords(r, act) else []
  {
    var n := NewRecords(r, act);
    match act
    case Countermand(f, target, reason, at, recordedAt) =>
      if n != [] {
        NamingOne(r.directives[target], f, reason, recordedAt, id);
      }
    case FreezeOverride(_, _, _, _, _, _) =>
      FreezeOverrideNamesNone(act, id);
      NamingNone(n, id);
    case _ => NamingNone(n, id);
  }

  lemma {:induction false} NamingOne(d: Directive, formerId: string, reason: string, at: int, id: string)
    ensures var x := CountermandRecord(d, formerId, reason, at); Naming([x], id) == if d.id == id then [x] else []
  {
    var x := CountermandRecord(d, formerId, reason, at);
    NamingAppend([], x, id);
    assert [] + [x] == [x];
    assert Get(x.data, "directiveId") == Some(Str(d.id));
  }

  lemma {:induction false} StepAccounts(r: Realm, act: Act, id: string, overrides: seq<RecordInput>)
    requires Numbered(r) && Accounted(r, id, overrides)
    ensures Accounted(After(r, act), id,
                      overrides + if act.Countermand? && act.directiveId == id then NewRecords(r, act) else [])
  {
    match act
    case Issue(d) => IssueKeepsNumbers(r, d);
    case _ =>
  }

  /**
   A directive stands countermanded exactly when one override names it: the record of that countermand, by
   someone who still is a Former Prime. No other directive is named by any.
   */
  lemma {:induction false} CountermandsAreRecorded(r: Realm, steps: seq<Act>, id: string)
    requires Fresh(r)
    ensures Accounted(Reign(r, steps), id, Naming(Added(r, steps), id))
  {
    if steps != [] {
      var front, last := steps[..|steps| - 1], steps[|steps| - 1];
      var before, sofar := Reign(r, front), Added(r, front);
      CountermandsAreRecorded(r, front, id);
      ReignIsNumbered(r, front);
      NamingMore(sofar, NewRecords(before, last), id);
      NewNaming(before, last, id);
      StepAccounts(before, last, id, Naming(sofar, id));
    }
  }

  /** The directive is still there, its text the same, and a countermand of it still stands. */
  ghost predicate Stands(d: Directive, r: Realm) {
    && d.id in r.directives && r.directives[d.id].(status := d.status) == d
    && (d.status.COUNTERMANDED? ==> r.directives[d.id] == d)
  }

  lemma {:induction false} StepKeepsDirective(r: Realm, act: Act, d: Directive)
    requires Numbered(r) && Stands(d, r)
    ensures Stands(d, After(r, act))
  {
    if act.Issue? {
      IssueKeepsNumbers(r, act.decree);
    }
  }

  /** A directive's text never changes, and a countermand is never lifted. */
  lemma {:induction false} CountermandIsFinal(r: Realm, steps: seq<Act>, d: Directive)
    requires Numbered(r) && d.id in r.directives && r.directives[d.id] == d
    ensures Stands(d, Reign(r, steps))
  {
    if steps != [] {
      var front := steps[..|steps| - 1];
      CountermandIsFinal(r, front, d);
      ReignIsNumbered(r, front);
      StepKeepsDirective(Reign(r, front), steps[|steps| - 1], d);
    }
  }

  // ---------- primes ----------

  function RegistryOf(r: Realm): Option<Registry> { Some(Registry(r.acting.id, r.formers.Keys)) }

  function Successions(steps: seq<Act>): nat {
    if steps == [] then 0 else Successions(steps[..|steps| - 1]) + if steps[|steps| - 1].Succeed? then 1 else 0
  }

  /**
   A prime who has acted may read the ledger ever after: in office as Acting Prime, and as a Former Prime from the
   first succession on. A Former Prime stays one.
   */
  lemma {:induction false} PrimesMayReadForever(r: Realm, steps: seq<Act>)
    ensures var now := Reign(r, steps);
            && r.formers.Keys <= now.formers.Keys
            && (if Successions(steps) > 0 then r.acting.id in now.formers else now.acting == r.acting)
            && Authorized(RegistryOf(now),
                          Identity(r.acting.id, if Successions(steps) > 0 then FormerRole else ActingRole))
  {
    if steps != [] {
      PrimesMayReadForever(r, steps[..|steps| - 1]);
    }
  }

  // ---------- the ledger adds up ----------

  function OfKind(records: seq<RecordInput>, kind: RecordKind): nat {
    if records == [] then 0
    else OfKind(records[..|records| - 1], kind) + if records[|records| - 1].kind == kind then 1 else 0
  }

  lemma {:induction false} OfKindMore(a: seq<RecordInput>, b: seq<RecordInput>, kind: RecordKind)
    ensures OfKind(a + b, kind) == OfKind(a, kind) + OfKind(b, kind)
  {
    if b == [] {
      assert a + b == a;
    } else {
      OfKindMore(a, b[..|b| - 1], kind);
      FrontLast(a, b);
      TakeNext(a + b, |a + b| - 1);
      assert (a + b)[..|a + b| - 1] == a + b[..|b| - 1];
    }
  }

  lemma {:induction false} KindsCoverAll(records: seq<RecordInput>)
    ensures |records| == OfKind(records, OVERRIDE) + OfKind(records, ANOMALOUS_COMMAND)
                         + OfKind(records, CRITICAL_OOB_DECISION)
  {
    if records != [] {
      KindsCoverAll(records[..|records| - 1]);
    }
  }

  /** What a directive owes the ledger, by kind. */
  function Due(d: Directive, kind: RecordKind): nat {
    match kind
    case OVERRIDE => if d.status.COUNTERMANDED? then 1 else 0
    case ANOMALOUS_COMMAND => if d.anomalous then 1 else 0
    case CRITICAL_OOB_DECISION => if d.critical then 1 else 0
  }

  function AllDue(ds: seq<Directive>, kind: RecordKind): nat {
    if ds == [] then 0 else AllDue(ds[..|ds| - 1], kind) + Due(ds[|ds| - 1], kind)
  }

  lemma {:induction false} AllDueUpdate(ds: seq<Directive>, i: nat, d: Directive, kind: RecordKind)
    requires i < |ds|
    ensures AllDue(ds[i := d], kind) == AllDue(ds, kind) - Due(ds[i], kind) + Due(d, kind)
  {
    if i == |ds| - 1 {
      assert ds[i := d][..i] == ds[..i];
    } else {
      AllDueUpdate(ds[..|ds| - 1], i, d, kind);
      assert ds[i := d][..|ds| - 1] == ds[..|ds| - 1][i := d];
    }
  }

  /** What the steps that are about no directive owe it. */
  function StepsDue(steps: seq<Act>, kind: RecordKind): nat {
    if steps == [] then 0 else StepsDue(steps[..|steps| - 1], kind) + StepDue(steps[|steps| - 1], kind)
  }

  function StepDue(act: Act, kind: RecordKind): nat {
    if (act.Succeed? && kind == CRITICAL_OOB_DECISION) || (act.FreezeOverride? && kind == OVERRIDE) then 1 else 0
  }

  lemma {:induction false} OfKindOne(x: RecordInput, kind: RecordKind)
    ensures OfKind([x], kind) == if x.kind == kind then 1 else 0
  {
    assert [x][..0] == [];
  }

  lemma {:induction false} FlagsOfKind(d: Directive, criticalAt: int, anomalousAt: int, kind: RecordKind)
    requires d.status == ACTIVE
    ensures OfKind(FlagRecords(d, criticalAt, anomalousAt), kind) == Due(d, kind)
  {
    var c, a := CriticalRecord(d, criticalAt), AnomalousRecord(d, anomalousAt);
    OfKindMore(if d.critical then [c] else [], if d.anomalous then [a] else [], kind);
    OfKindOne(c, kind);
    OfKindOne(a, kind);
  }

  /** One act records exactly what it makes due. */
  lemma {:induction false} NewOfKind(r: Realm, act: Act, kind: RecordKind)
    requires Numbered(r) && Numbered(After(r, act))
    ensures OfKind(NewRecords(r, act), kind) + AllDue(Listed(r), kind)
         == StepDue(act, kind) + AllDue(Listed(After(r, act)), kind)
  {
    match act
    case Issue(d) => IssueOfKind(r, d, kind);
    case Countermand(f, id, reason, at, recordedAt) => CountermandOfKind(r, act, kind);
    case _ =>
      OfKindOne(NewRecords(r, act)[0], kind);
      SameList(r, After(r, act));
  }

  lemma {:induction false} SameList(r: Realm, s: Realm)
    requires Numbered(r) && Numbered(s) && r.order == s.order && r.directives == s.directives
    ensures Listed(r) == Listed(s)
  {
  }

  lemma {:induction false} IssueOfKind(r: Realm, d: Decree, kind: RecordKind)
    requires Numbered(r) && Numbered(Issued(r, d))
    ensures OfKind(FlagRecords(NewDirective(r, d), d.criticalAt, d.anomalousAt), kind) + AllDue(Listed(r), kind)
         == AllDue(Listed(Issued(r, d)), kind)
  {
    var was, now, n := Listed(r), Listed(Issued(r, d)), NewDirective(r, d);
    IssueKeepsNumbers(r, d);
    FlagsOfKind(n, d.criticalAt, d.anomalousAt, kind);
    assert now[|was|] == n;
    assert now[..|was|] == was;
  }

  lemma {:induction false} CountermandOfKind(r: Realm, act: Act, kind: RecordKind)
    requires Numbered(r) && Numbered(After(r, act)) && act.Countermand?
    ensures OfKind(NewRecords(r, act), kind) + AllDue(Listed(r), kind) == AllDue(Listed(After(r, act)), kind)
  {
    var n, s := NewRecords(r, act), After(r, act);
    if n == [] {
      SameList(r, s);
    } else {
      OfKindOne(n[0], kind);
      OneMoreDue(r, s, act.directiveId, s.directives[act.directiveId], kind);
    }
  }

  lemma {:induction false} OneMoreDue(r: Realm, s: Realm, id: string, d: Directive, kind: RecordKind)
    requires Numbered(r) && Numbered(s) && s.order == r.order && id in r.directives
    requires s.directives == r.directives[id := d]
    ensures AllDue(Listed(s), kind) == AllDue(Listed(r), kind) - Due(r.directives[id], kind) + Due(d, kind)
  {
    var i :| 0 <= i < |r.order| && r.order[i] == id;
    OnlyOneMoves(r, i, d, s);
    AllDueUpdate(Listed(r), i, d, kind);
  }

  lemma {:induction false} OnlyOneMoves(r: Realm, i: nat, d: Directive, s: Realm)
    requires Numbered(r) && Numbered(s) && i < |r.order| && s.order == r.order
    requires s.directives == r.directives[r.order[i] := d]
    ensures Listed(s) == Listed(r)[i := d]
  {
    forall j | 0 <= j < |r.order| && j != i ensures r.order[j] != r.order[i] {
      if r.order[j] == r.order[i] {
        SerialIdInjective("dir_", j + 1, i + 1);
      }
    }
  }

  /**
   The ledger adds up, kind by kind: the critical and anomalous flags of the directives, their countermands, the
   successions and the freeze overrides are recorded once each, and nothing else is.
   */
  lemma {:induction false} LedgerAddsUp(r: Realm, steps: seq<Act>, kind: RecordKind)
    requires Fresh(r)
    ensures Numbered(Reign(r, steps))
    ensures OfKind(Added(r, steps), kind) == AllDue(Listed(Reign(r, steps)), kind) + StepsDue(steps, kind)
  {
    ReignIsNumbered(r, steps);
    if steps != [] {
      var front, last := steps[..|steps| - 1], steps[|steps| - 1];
      LedgerAddsUp(r, front, kind);
      OfKindMore(Added(r, front), NewRecords(Reign(r, front), last), kind);
      NewOfKind(Reign(r, front), last, kind);
    }
  }

  /** The ledger's growth is the number of flags, countermands, successions and freeze overrides. */
  lemma {:induction false} LedgerLength(r: Realm, steps: seq<Act>)
    requires Fresh(r)
    ensures Numbered(Reign(r, steps))
    ensures var ds := Listed(Reign(r, steps));
            |Reign(r, steps).records| == |r.records|
                                         + AllDue(ds, CRITICAL_OOB_DECISION) + AllDue(ds, ANOMALOUS_COMMAND)
                                         + AllDue(ds, OVERRIDE)
                                         + StepsDue(steps, CRITICAL_OOB_DECISION) + StepsDue(steps, OVERRIDE)
  {
    LedgerAddsUp(r, steps, OVERRIDE);
    LedgerAddsUp(r, steps, ANOMALOUS_COMMAND);
    LedgerAddsUp(r, steps, CRITICAL_OOB_DECISION);
    NoAnomalousSteps(steps);
    KindsCoverAll(Added(r, steps));
  }

  lemma {:induction false} NoAnomalousSteps(steps: seq<Act>)
    ensures StepsDue(steps, ANOMALOUS_COMMAND) == 0
  {
    if steps != [] {
      NoAnomalousSteps(steps[..|steps| - 1]);
    }
  }
}
