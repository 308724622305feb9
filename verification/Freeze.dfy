/** The system freeze flag and the quarantine of packets that tripped it. */
module Freeze {
  import opened Text
  import opened Schema

  /** Running, or frozen with the cause that first froze it. */
  datatype FreezeState = Running | Frozen(reason: string, score: real, packetId: Option<string>, frozenAt: int)

  datatype QuarantineRecord = QuarantineRecord(packetId: string, packet: RoutingPacket, reason: string,
                                               score: Option<real>, quarantinedAt: int)

  /** The first trigger wins; later ones leave the recorded cause alone. */
  function Tripped(f: FreezeState, reason: string, score: real, packetId: Option<string>, now: int): FreezeState {
    if f.Frozen? then f else Frozen(reason, score, packetId, now)
  }

  class SystemFreezeController {
    /** Recognises an override token; a missing token is never one. */
    const accepts: string -> bool
    var frozen: bool
    var reason: Option<string>
    var score: Option<real>
    var packetId: Option<string>
    var frozenAt: Option<int>
    var quarantine: seq<QuarantineRecord>

    /** The cause fields are set exactly while frozen. */
    ghost predicate Valid()
      reads this
    {
      if frozen then reason.Some? && score.Some? && frozenAt.Some?
      else reason.None? && score.None? && packetId.None? && frozenAt.None?
    }

    ghost function State(): FreezeState
      reads this
      requires Valid()
    {
      if frozen then Frozen(reason.value, score.value, packetId, frozenAt.value) else Running
    }

    constructor (accepts: string -> bool)
      ensures Valid() && State() == Running && quarantine == [] && this.accepts == accepts
    {
      this.accepts := accepts;
      frozen, reason, score, packetId, frozenAt, quarantine := false, None, None, None, None, [];
    }

    method TriggerFreeze(reason: string, score: real, packetId: Option<string>, now: int)
      requires Valid()
      modifies this
      ensures Valid() && State() == Tripped(old(State()), reason, score, packetId, now)
      ensures quarantine == old(quarantine)
    {
      if !frozen {
        frozen := true;
        this.reason, this.score, this.packetId, frozenAt := Some(reason), Some(score), packetId, Some(now);
      }
    }

    /** Keep a copy of a packet; without a given reason, the freeze's own is used. */
    method QuarantinePacket(p: RoutingPacket, why: Option<string>, score: Option<real>, now: int)
      requires Valid()
      modifies this`quarantine
      ensures quarantine == old(quarantine) + [QuarantineRecord(p.header.packetId, p,
                if why.Some? then why.value else if State().Frozen? then State().reason
                    else "quarantined by KNOLL", score, now)]
    {
      var text := if why.Some? then why.value else if reason.Some? then reason.value else "quarantined by KNOLL";
      quarantine := quarantine + [QuarantineRecord(p.header.packetId, p, text, score, now)];
    }

    method IsFrozen() returns (b: bool)
      requires Valid()
      ensures b <==> State().Frozen?
    {
      b := frozen;
    }

    /** Lift the freeze if the token is recognised; quarantined packets stay where they are. */
    method Unfreeze(token: Option<string>) returns (lifted: bool)
      requires Valid()
      modifies this
      ensures Valid() && quarantine == old(quarantine)
      ensures lifted <==> old(State()).Running? || (token.Some? && accepts(token.value))
      ensures State() == if lifted then Running else old(State())
    {
      if !frozen {
        return true;
      }
      if token.None? || !accepts(token.value) {
        return false;
      }
      ClearFreeze();
      lifted := true;
    }

    method ClearFreeze()
      modifies this
      ensures Valid() && State() == Running && quarantine == old(quarantine)
    {
      frozen, reason, score, packetId, frozenAt := false, None, None, None, None;
    }
  }
}
