/** The hash chain over KNOLL's security audit. */
module AuditChain {
  import opened Text
  import opened Json
  import opened Schema
  import opened HashChain

  function OutcomeName(o: AuditOutcome): string {
    if o.ALLOWED? then "ALLOWED" else "BLOCKED"
  }

  /** `entry.reasoning ?? null`. */
  function ReasoningValue(r: Option<string>): Json {
    if r.Some? then Str(r.value) else Null
  }

  function EntryValue(e: AuditEntry): Json {
    Obj(Member("id", Str(e.id),
        Member("packetId", Str(e.packetId),
        Member("outcome", Str(OutcomeName(e.outcome)),
        Member("reasoning", ReasoningValue(e.reasoning),
        Member("timestamp", Int(e.timestamp), NoMembers))))))
  }

  /** The tamper-protected content of an audit entry, fields in a fixed order. */
  function CanonicalEntry(e: AuditEntry): string { Stringify(EntryValue(e)) }

  lemma {:induction false} EntryValueInjective(e: AuditEntry, f: AuditEntry)
    requires EntryValue(e) == EntryValue(f)
    ensures e == f
  {
    assert OutcomeName(e.outcome)[0] == OutcomeName(f.outcome)[0];
    IntTextInjective(e.timestamp, f.timestamp);
  }

  /** Entries with the same canonical text are the same entry. */
  lemma {:induction false} CanonicalEntryInjective(e: AuditEntry, f: AuditEntry)
    requires CanonicalEntry(e) == CanonicalEntry(f)
    ensures e == f
  {
    StringifyInjective(EntryValue(e), EntryValue(f));
    EntryValueInjective(e, f);
  }

  lemma {:induction false} SameEntriesMeansEqual(a: seq<AuditEntry>, b: seq<AuditEntry>)
    ensures SameEntries(CanonicalEntry, a, b) <==> a == b
  {
    if SameEntries(CanonicalEntry, a, b) {
      forall i | 0 <= i < |a| ensures a[i] == b[i] {
        assert CanonicalEntry(a[i]) == CanonicalEntry(b[i]);
        CanonicalEntryInjective(a[i], b[i]);
      }
    }
  }

  /** Accepted chains with equal heads seal the very same audit entries in the same order. */
  lemma {:induction false} AuditHeadPinsHistory(hash: Digest, a: seq<Link<AuditEntry>>, b: seq<Link<AuditEntry>>)
    requires FixedLength(hash)
    requires CollisionFree(hash, Preimages(CanonicalEntry, a) + Preimages(CanonicalEntry, b))
    requires Accepted(hash, CanonicalEntry, a) && Accepted(hash, CanonicalEntry, b)
    requires Head(a) == Head(b)
    ensures Entries(a) == Entries(b) && a == b
  {
    HeadPinsHistory(hash, CanonicalEntry, a, b);
    SameEntriesMeansEqual(Entries(a), Entries(b));
    AcceptedIffSealed(hash, CanonicalEntry, a);
    AcceptedIffSealed(hash, CanonicalEntry, b);
  }

  class AuditHashChain {
    const hash: Digest
    var links: seq<Link<AuditEntry>>
    ghost var history: seq<AuditEntry>

    /** The links are the seal of the entries appended since construction or the last rebuild. */
    ghost predicate Valid()
      reads this
    {
      links == Seal(hash, CanonicalEntry, history)
    }

    constructor (hash: Digest)
      ensures Valid() && history == [] && this.hash == hash
    {
      this.hash := hash;
      links, history := [], [];
    }

    method Append(entry: AuditEntry) returns (link: Link<AuditEntry>)
      requires Valid()
      modifies this
      ensures Valid() && history == old(history) + [entry]
      ensures links == old(links) + [link]
    {
      var index := |links|;
      var prevHash := if index == 0 then GENESIS_HASH else links[index - 1].hash;
      var entryHash := hash(CanonicalEntry(entry));
      link := Link(index, entry, entryHash, prevHash, LinkHash(hash, index, prevHash, entryHash));
      links, history := links + [link], history + [entry];
      SealAppend(hash, CanonicalEntry, old(history), entry);
    }

    method AppendAll(entries: seq<AuditEntry>) returns (head: string)
      requires Valid()
      modifies this
      ensures Valid() && history == old(history) + entries && head == Head(links)
    {
      var i := 0;
      while i < |entries|
        invariant 0 <= i <= |entries|
        invariant Valid() && history == old(history) + entries[..i]
      {
        var _ := Append(entries[i]);
        TakeNext(entries, i);
        i := i + 1;
      }
      TakeAll(entries, i);
      head := Head(links);
    }

    /** Replace the chain by one over the given entries. */
    method Rebuild(entries: seq<AuditEntry>) returns (head: string)
      modifies this
      ensures Valid() && history == entries && head == Head(links)
    {
      links, history := [], [];
      head := AppendAll(entries);
    }

    /** A chain built here always verifies. */
    method Verify() returns (v: Verification)
      requires Valid()
      ensures v == Verification(true, |links|, -1)
    {
      SealIsAccepted(hash, CanonicalEntry, history);
      v := VerifyLinks(hash, CanonicalEntry, links);
    }

    /** Compare a snapshot with the sealed history; see `Reports` for what the answer means. */
    method DetectTamper(current: seq<AuditEntry>) returns (v: Verification)
      requires Valid()
      ensures Reports(hash, history, current, v)
    {
      if |current| != |links| {
        LengthChanged(hash, history, current);
        return Verification(false, |links|, if |current| < |links| then |current| else |links|);
      }
      var brokenAt := FirstMismatch(hash, CanonicalEntry, links, current);
      if brokenAt < |links| {
        FirstDifference(hash, history, current, brokenAt);
        return Verification(false, |links|, brokenAt);
      }
      NoDifference(hash, history, current);
      v := Verification(true, |links|, -1);
    }
  }

  /**
   What a tamper report means. The sealed history itself always passes. Unless hashed texts collide,
   nothing else does: an edit, a reorder, an insertion or a deletion is reported, at the shorter
   length when the lengths differ and otherwise at the first position that differs.
   */
  ghost predicate Reports(hash: Digest, history: seq<AuditEntry>, current: seq<AuditEntry>, v: Verification) {
    && v.length == |history|
    && (current == history ==> v.valid)
    && (|current| != |history| ==> !v.valid && v.brokenAt == if |current| < |history| then |current| else |history|)
    && (FixedLength(hash) && CollisionFree(hash, HashedTexts(hash, history, current)) ==>
          (if |current| == |history| && !v.valid then FirstDifferenceAt(history, current, v.brokenAt)
           else v.valid <==> current == history))
  }

  /** Every text hashed by sealing the history or by re-sealing the snapshot. */
  ghost function HashedTexts(hash: Digest, history: seq<AuditEntry>, current: seq<AuditEntry>): set<string> {
    Preimages(CanonicalEntry, Seal(hash, CanonicalEntry, history))
    + Preimages(CanonicalEntry, Seal(hash, CanonicalEntry, current))
  }

  ghost predicate FirstDifferenceAt(history: seq<AuditEntry>, current: seq<AuditEntry>, i: int) {
    0 <= i < |history| && i < |current| && current[i] != history[i] && current[..i] == history[..i]
  }

  lemma {:induction false} LengthChanged(hash: Digest, history: seq<AuditEntry>, current: seq<AuditEntry>)
    requires |current| != |history|
    ensures Reports(hash, history, current,
                    Verification(false, |history|, if |current| < |history| then |current| else |history|))
  {
  }

  /** The first position where re-sealed hashes diverge is the first position where entries do. */
  lemma {:induction false} FirstDifference(hash: Digest, history: seq<AuditEntry>, current: seq<AuditEntry>, i: nat)
    requires |current| == |history| && i < |history|
    requires !SameHashAt(Seal(hash, CanonicalEntry, current), Seal(hash, CanonicalEntry, history), i)
    requires i > 0 ==> SameHashAt(Seal(hash, CanonicalEntry, current), Seal(hash, CanonicalEntry, history), i - 1)
    ensures Reports(hash, history, current, Verification(false, |history|, i))
  {
    if FixedLength(hash) && CollisionFree(hash, HashedTexts(hash, history, current)) {
      if i > 0 {
        HashAgreesIffPrefixAgrees(hash, CanonicalEntry, history, current, i - 1);
        SameEntriesMeansEqual(history[..i], current[..i]);
      }
      HashAgreesIffPrefixAgrees(hash, CanonicalEntry, history, current, i);
      SameEntriesMeansEqual(history[..i + 1], current[..i + 1]);
      TakeNext(history, i);
      TakeNext(current, i);
    }
  }

  lemma {:induction false} NoDifference(hash: Digest, history: seq<AuditEntry>, current: seq<AuditEntry>)
    requires |current| == |history|
    requires forall j: nat | j < |history| ::
               SameHashAt(Seal(hash, CanonicalEntry, current), Seal(hash, CanonicalEntry, history), j)
    ensures Reports(hash, history, current, Verification(true, |history|, -1))
  {
    if FixedLength(hash) && CollisionFree(hash, HashedTexts(hash, history, current)) && history != [] {
      var n := |history| - 1;
      assert SameHashAt(Seal(hash, CanonicalEntry, current), Seal(hash, CanonicalEntry, history), n);
      HashAgreesIffPrefixAgrees(hash, CanonicalEntry, history, current, n);
      TakeAll(history, n + 1);
      TakeAll(current, n + 1);
      SameEntriesMeansEqual(history, current);
    }
  }
}
