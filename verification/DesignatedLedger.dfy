/** The Designated Audit Ledger: the hash-chained record of sovereign action, and who may read it. */
module DesignatedLedger {
  import opened Text
  import opened Json
  import opened HashChain

  datatype RecordKind = OVERRIDE | ANOMALOUS_COMMAND | CRITICAL_OOB_DECISION

  function KindName(k: RecordKind): string {
    match k
    case OVERRIDE => "OVERRIDE"
    case ANOMALOUS_COMMAND => "ANOMALOUS_COMMAND"
    case CRITICAL_OOB_DECISION => "CRITICAL_OOB_DECISION"
  }

  /** What a caller asks to have recorded; `data` is an object. */
  datatype RecordInput = RecordInput(kind: RecordKind, summary: string, actorId: string, data: Members, timestamp: int)

  datatype LedgerRecord = LedgerRecord(id: string, input: RecordInput)

  function RecordValue(r: LedgerRecord): Json {
    Obj(Member("id", Str(r.id),
        Member("kind", Str(KindName(r.input.kind)),
        Member("summary", Str(r.input.summary),
        Member("actorId", Str(r.input.actorId),
        Member("data", Obj(r.input.data),
        Member("timestamp", Int(r.input.timestamp), NoMembers)))))))
  }

  /** `canonicalizeRecord`: fields in a fixed order, `data` in the order it was given. */
  function CanonicalRecord(r: LedgerRecord): string { Stringify(RecordValue(r)) }

  /** Records with the same canonical text are the same record. */
  lemma {:induction false} CanonicalRecordInjective(r: LedgerRecord, s: LedgerRecord)
    requires CanonicalRecord(r) == CanonicalRecord(s)
    ensures r == s
  {
    StringifyInjective(RecordValue(r), RecordValue(s));
    assert KindName(r.input.kind)[0] == KindName(s.input.kind)[0];
    IntTextInjective(r.input.timestamp, s.input.timestamp);
  }

  /** The records made from a history of requests, numbered in order. */
  function Records(history: seq<RecordInput>): (rs: seq<LedgerRecord>)
    ensures |rs| == |history|
    ensures forall i | 0 <= i < |history| :: rs[i] == LedgerRecord(SerialId("dal_", i + 1), history[i])
  {
    if history == [] then []
    else Records(history[..|history| - 1]) + [LedgerRecord(SerialId("dal_", |history|), history[|history| - 1])]
  }

  function Sealed(hash: Digest, history: seq<RecordInput>): seq<Link<LedgerRecord>> {
    Seal(hash, CanonicalRecord, Records(history))
  }

  lemma {:induction false} SealedAppend(hash: Digest, history: seq<RecordInput>, input: RecordInput)
    ensures Sealed(hash, history + [input]) == Sealed(hash, history)
            + [NextLink(hash, CanonicalRecord, Sealed(hash, history),
                        LedgerRecord(SerialId("dal_", |history| + 1), input))]
  {
    var record := LedgerRecord(SerialId("dal_", |history| + 1), input);
    assert (history + [input])[..|history|] == history;
    assert Records(history + [input]) == Records(history) + [record];
    SealAppend(hash, CanonicalRecord, Records(history), record);
  }

  /** The live membership a ledger may be bound to. */
  datatype Registry = Registry(actingId: string, formerIds: set<string>)

  datatype ReaderRole = ActingRole | FormerRole | OtherRole(name: string)

  /** Whoever asks to read: the Prime Hope token, an object with an id and a role, or anything else. */
  datatype Reader = PrimeHope | Identity(id: string, role: ReaderRole) | Stranger

  /** `authorize`: the claimed role, and the membership behind it when there is a registry to ask. */
  predicate Authorized(registry: Option<Registry>, reader: Reader) {
    match reader
    case PrimeHope => true
    case Stranger => false
    case Identity(id, role) =>
      (role.ActingRole? && (registry.None? || registry.value.actingId == id))
      || (role.FormerRole? && (registry.None? || id in registry.value.formerIds))
  }

  class DesignatedAuditLedger {
    const hash: Digest
    var links: seq<Link<LedgerRecord>>
    var seqNo: nat
    ghost var history: seq<RecordInput>

    ghost predicate Valid()
      reads this
    {
      links == Sealed(hash, history) && seqNo == |history|
    }

    constructor (hash: Digest)
      ensures Valid() && history == [] && this.hash == hash
    {
      this.hash := hash;
      links, seqNo, history := [], 0, [];
    }

    /** The only way in: one more record, sealed on top of the current head. */
    method Record(input: RecordInput) returns (link: Link<LedgerRecord>)
      requires Valid()
      modifies this
      ensures Valid() && history == old(history) + [input] && links == old(links) + [link]
      ensures link.entry == LedgerRecord(SerialId("dal_", |history|), input)
    {
      var index := |links|;
      seqNo := seqNo + 1;
      var record := LedgerRecord(SerialId("dal_", seqNo), input);
      var prevHash := if index == 0 then GENESIS_HASH else links[index - 1].hash;
      var recordHash := hash(CanonicalRecord(record));
      link := Link(index, record, recordHash, prevHash, LinkHash(hash, index, prevHash, recordHash));
      SealedAppend(hash, history, input);
      links, history := links + [link], history + [input];
    }

    /** `read`: the whole chain for those who may, and `None` for the refusal thrown at everyone else. */
    method Read(registry: Option<Registry>, reader: Reader) returns (r: Option<seq<Link<LedgerRecord>>>)
      requires Valid()
      ensures r.Some? <==> Authorized(registry, reader)
      ensures r.Some? ==> r.value == Sealed(hash, history)
    {
      match reader
      case PrimeHope => return Some(links);
      case Stranger => return None;
      case Identity(id, role) =>
        var roleOk := role == ActingRole || role == FormerRole;
        if roleOk {
          if registry.None? { return Some(links); }
          if role == ActingRole && registry.value.actingId == id { return Some(links); }
          if role == FormerRole && id in registry.value.formerIds { return Some(links); }
        }
        return None;
    }

    /** Whatever was recorded, the ledger verifies. */
    method Verify() returns (v: Verification)
      requires Valid()
      ensures v == Verification(true, |links|, -1)
    {
      SealIsAccepted(hash, CanonicalRecord, Records(history));
      v := VerifyLinks(hash, CanonicalRecord, links);
    }
  }

  /** Recording more never disturbs what is sealed: the old chain is a prefix of the new one. */
  lemma {:induction false} LedgerOnlyExtends(hash: Digest, history: seq<RecordInput>, more: seq<RecordInput>)
    ensures Sealed(hash, history) <= Sealed(hash, history + more)
  {
    var n := |history|;
    var all := Records(history + more);
    assert Records(history) == all[..n];
    SealPrefix(hash, CanonicalRecord, all, n);
  }

  /** Two ledgers that verify and have the same head hold the very same records, ids and all. */
  lemma {:induction false} LedgerHeadPinsHistory(hash: Digest, a: seq<Link<LedgerRecord>>, b: seq<Link<LedgerRecord>>)
    requires FixedLength(hash)
    requires CollisionFree(hash, Preimages(CanonicalRecord, a) + Preimages(CanonicalRecord, b))
    requires Accepted(hash, CanonicalRecord, a) && Accepted(hash, CanonicalRecord, b)
    requires Head(a) == Head(b)
    ensures a == b
  {
    HeadPinsHistory(hash, CanonicalRecord, a, b);
    var x, y := Entries(a), Entries(b);
    forall i | 0 <= i < |x| ensures x[i] == y[i] {
      assert CanonicalRecord(x[i]) == CanonicalRecord(y[i]);
      CanonicalRecordInjective(x[i], y[i]);
    }
    assert x == y;
    AcceptedIffSealed(hash, CanonicalRecord, a);
    AcceptedIffSealed(hash, CanonicalRecord, b);
  }
}
