/** The canonical text of a packet, and what two packets with the same text have in common. */
module PacketHash {
  import opened Text
  import opened Json
  import opened Schema

  function HeaderMembers(h: Header): Members {
    Member("packetId", Str(h.packetId),
    Member("timestamp", Int(h.timestamp),
    Member("source", Str(EndpointName(h.source)),
    Member("destination", Str(EndpointName(h.destination)),
    Member("priority", Str(PriorityName(h.priority)),
    match h.tenantId
    case None => NoMembers
    case Some(t) => Member("tenantId", Str(t), NoMembers))))))
  }

  function CanonicalValue(h: Header, p: Payload): Json {
    Obj(Member("header", Obj(HeaderMembers(h)),
        Member("payload", Obj(
          Member("intent", Str(p.intent),
          Member("data", SortValue(p.data), NoMembers))), NoMembers)))
  }

  /** The tamper-protected part of a packet as text; `security` is left out. */
  function Canonicalize(h: Header, p: Payload): string {
    Stringify(CanonicalValue(h, p))
  }

  /** Packets that agree on everything but the order of keys inside `data`. */
  predicate SameContent(h: Header, p: Payload, h': Header, p': Payload) {
    h == h' && p.intent == p'.intent && Equivalent(p.data, p'.data)
  }

  /** The canonical text decides packet equality up to key order in `data`, at every depth. */
  lemma CanonicalDecides(h: Header, p: Payload, h': Header, p': Payload)
    requires Distinct(p.data) && Distinct(p'.data)
    ensures Canonicalize(h, p) == Canonicalize(h', p') <==> SameContent(h, p, h', p')
  {
    SortDecides(p.data, p'.data);
    if Canonicalize(h, p) == Canonicalize(h', p') {
      StringifyInjective(CanonicalValue(h, p), CanonicalValue(h', p'));
      HeaderMembersInjective(h, h');
    }
  }

  lemma HeaderMembersInjective(h: Header, h': Header)
    requires HeaderMembers(h) == HeaderMembers(h')
    ensures h == h'
  {
    IntTextInjective(h.timestamp, h'.timestamp);
    EndpointNameInjective(h.source, h'.source);
    EndpointNameInjective(h.destination, h'.destination);
    PriorityNameInjective(h.priority, h'.priority);
  }

  /** `computePacketHash`, for a given digest function. */
  function PacketDigest(hash: string -> string, h: Header, p: Payload): string {
    hash(Canonicalize(h, p))
  }
}
