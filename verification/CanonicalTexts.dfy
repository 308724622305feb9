/** What the hashed texts say: each is read back as a JSON object, field by field. */
module CanonicalTexts {
  import opened Text
  import opened Json
  import opened JsonText
  import opened Schema
  import opened PacketHash
  import opened AuditChain
  import opened DesignatedLedger

  /** The object a text is read as, whole. */
  predicate ReadsAs(s: string, ms: Members) { ReadValue(s) == Some(Read(Obj(ms), "")) }

  /** An object's keys and values, in order. */
  function Pairs(ms: Members): seq<(string, Json)> {
    match ms case NoMembers => [] case Member(k, v, rest) => [(k, v)] + Pairs(rest)
  }

  /**
   The text a packet is hashed over is a JSON object of its header and its payload: the header's fields in their order,
   the tenant only when there is one, then the intent and the key-sorted data; nothing of the security block.
   */
  lemma {:induction false} PacketTextTells(h: Header, p: Payload) returns (top: Members, header: Members,
                                                                          payload: Members)
    ensures ReadsAs(Canonicalize(h, p), top)
    ensures Pairs(top) == [("header", Obj(header)), ("payload", Obj(payload))]
    ensures Pairs(payload) == [("intent", Str(p.intent)), ("data", SortValue(p.data))]
    ensures Pairs(header) == [("packetId", Str(h.packetId)), ("timestamp", Num(IntText(h.timestamp))),
                              ("source", Str(EndpointName(h.source))),
                              ("destination", Str(EndpointName(h.destination))),
                              ("priority", Str(PriorityName(h.priority)))]
                             + if h.tenantId.Some? then [("tenantId", Str(h.tenantId.value))] else []
  {
    var v := CanonicalValue(h, p);
    top := v.members;
    header, payload := top.value.members, top.rest.value.members;
    JsonRoundTrip(v);
    TwoPairs(top);
    TwoPairs(payload);
    HeaderPairs(h);
  }

  lemma {:induction false} TwoPairs(ms: Members)
    requires ms.Member? && ms.rest.Member? && ms.rest.rest.NoMembers?
    ensures Pairs(ms) == [(ms.key, ms.value), (ms.rest.key, ms.rest.value)]
  {
    assert Pairs(ms.rest) == [(ms.rest.key, ms.rest.value)] + Pairs(ms.rest.rest);
  }

  lemma {:induction false} FivePairs(a: string, v: Json, b: string, w: Json, c: string, x: Json, d: string, y: Json,
                                     e: string, z: Json, rest: Members)
    ensures Pairs(Member(a, v, Member(b, w, Member(c, x, Member(d, y, Member(e, z, rest))))))
         == [(a, v), (b, w), (c, x), (d, y), (e, z)] + Pairs(rest)
  {
    assert Pairs(Member(e, z, rest)) == [(e, z)] + Pairs(rest);
    assert Pairs(Member(d, y, Member(e, z, rest))) == [(d, y), (e, z)] + Pairs(rest);
    assert Pairs(Member(c, x, Member(d, y, Member(e, z, rest)))) == [(c, x), (d, y), (e, z)] + Pairs(rest);
    assert Pairs(Member(b, w, Member(c, x, Member(d, y, Member(e, z, rest)))))
        == [(b, w), (c, x), (d, y), (e, z)] + Pairs(rest);
  }

  lemma {:induction false} HeaderPairs(h: Header)
    ensures Pairs(HeaderMembers(h))
         == [("packetId", Str(h.packetId)), ("timestamp", Int(h.timestamp)), ("source", Str(EndpointName(h.source))),
             ("destination", Str(EndpointName(h.destination))), ("priority", Str(PriorityName(h.priority)))]
            + if h.tenantId.Some? then [("tenantId", Str(h.tenantId.value))] else []
  {
    var rest := if h.tenantId.Some? then Member("tenantId", Str(h.tenantId.value), NoMembers) else NoMembers;
    FivePairs("packetId", Str(h.packetId), "timestamp", Int(h.timestamp), "source", Str(EndpointName(h.source)),
              "destination", Str(EndpointName(h.destination)), "priority", Str(PriorityName(h.priority)), rest);
    if h.tenantId.Some? {
      assert Pairs(rest) == [("tenantId", Str(h.tenantId.value))] + Pairs(NoMembers);
    }
  }

  /** The text an audit entry is sealed over: its five fields in their order, a missing reason as null. */
  lemma {:induction false} EntryTextTells(e: AuditEntry) returns (fields: Members)
    ensures ReadsAs(CanonicalEntry(e), fields)
    ensures Pairs(fields) == [("id", Str(e.id)), ("packetId", Str(e.packetId)),
                              ("outcome", Str(if e.outcome == ALLOWED then "ALLOWED" else "BLOCKED")),
                              ("reasoning", if e.reasoning.Some? then Str(e.reasoning.value) else Null),
                              ("timestamp", Num(IntText(e.timestamp)))]
  {
    fields := EntryValue(e).members;
    JsonRoundTrip(EntryValue(e));
    FivePairs("id", Str(e.id), "packetId", Str(e.packetId), "outcome", Str(OutcomeName(e.outcome)), "reasoning",
              ReasoningValue(e.reasoning), "timestamp", Int(e.timestamp), NoMembers);
  }

  /** The text a sovereign record is sealed over: its six fields in their order, the data in the order it was given. */
  lemma {:induction false} RecordTextTells(r: LedgerRecord) returns (fields: Members)
    ensures ReadsAs(CanonicalRecord(r), fields)
    ensures Pairs(fields) == [("id", Str(r.id)), ("kind", Str(KindName(r.input.kind))),
                              ("summary", Str(r.input.summary)), ("actorId", Str(r.input.actorId)),
                              ("data", Obj(r.input.data)), ("timestamp", Num(IntText(r.input.timestamp)))]
  {
    fields := RecordValue(r).members;
    var last := Member("timestamp", Int(r.input.timestamp), NoMembers);
    JsonRoundTrip(RecordValue(r));
    FivePairs("id", Str(r.id), "kind", Str(KindName(r.input.kind)), "summary", Str(r.input.summary), "actorId",
              Str(r.input.actorId), "data", Obj(r.input.data), last);
    assert Pairs(last) == [("timestamp", Int(r.input.timestamp))] + Pairs(NoMembers);
  }
}
