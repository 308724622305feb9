/** Who may read the Designated Audit Ledger, from the acts of a whole reign. */
module LedgerReaders {
  import opened Text
  import opened Json
  import opened HashChain
  import opened DesignatedLedger
  import opened Sovereign

  /** The `k`-th act is the last succession. */
  ghost predicate LastSuccession(steps: seq<Act>, k: int) {
    0 <= k < |steps| && steps[k].Succeed? && forall m | k < m < |steps| :: !steps[m].Succeed?
  }

  ghost predicate NoSuccession(steps: seq<Act>) { forall m | 0 <= m < |steps| :: !steps[m].Succeed? }

  /** The prime in office after a reign: the last successor, or the first prime when there was no succession. */
  ghost predicate InOffice(first: Realm, steps: seq<Act>, id: string) {
    || (NoSuccession(steps) && id == first.acting.id)
    || exists k :: LastSuccession(steps, k) && id == steps[k].successor.id
  }

  /** A prime some succession of the reign replaced. */
  ghost predicate Replaced(first: Realm, steps: seq<Act>, id: string) {
    exists k :: 0 <= k < |steps| && steps[k].Succeed? && InOffice(first, steps[..k], id)
  }

  ghost predicate MayRead(first: Realm, steps: seq<Act>, reader: Reader) {
    match reader
    case PrimeHope => true
    case Stranger => false
    case Identity(id, ActingRole) => InOffice(first, steps, id)
    case Identity(id, FormerRole) => id in first.formers || Replaced(first, steps, id)
    case Identity(_, OtherRole(_)) => false
  }

  lemma {:induction false} OfficeMoves(first: Realm, steps: seq<Act>, act: Act, id: string)
    ensures InOffice(first, steps + [act], id)
            <==> if act.Succeed? then id == act.successor.id else InOffice(first, steps, id)
  {
    var longer, n := steps + [act], |steps|;
    if act.Succeed? {
      assert LastSuccession(longer, n);
      assert !NoSuccession(longer) by { assert longer[n].Succeed?; }
      forall k | LastSuccession(longer, k) ensures k == n {
        assert longer[n].Succeed?;
      }
    } else {
      assert longer[n] == act;
      assert forall m | 0 <= m < n :: longer[m] == steps[m];
      assert NoSuccession(longer) <==> NoSuccession(steps);
      forall k: int ensures LastSuccession(longer, k) <==> LastSuccession(steps, k) {
        assert 0 <= k < n ==> longer[k] == steps[k];
      }
      if InOffice(first, longer, id) && !NoSuccession(longer) {
        var k :| LastSuccession(longer, k) && id == longer[k].successor.id;
        assert LastSuccession(steps, k) && id == steps[k].successor.id;
      }
      if InOffice(first, steps, id) && !NoSuccession(steps) {
        var k :| LastSuccession(steps, k) && id == steps[k].successor.id;
        assert LastSuccession(longer, k) && id == longer[k].successor.id;
      }
    }
  }

  lemma {:induction false} ReplacedMoves(first: Realm, steps: seq<Act>, act: Act, id: string)
    ensures Replaced(first, steps + [act], id)
            <==> Replaced(first, steps, id) || (act.Succeed? && InOffice(first, steps, id))
  {
    var longer, n := steps + [act], |steps|;
    assert longer[..n] == steps && longer[n] == act;
    assert forall k | 0 <= k < n :: longer[k] == steps[k] && longer[..k] == steps[..k];
    if Replaced(first, longer, id) {
      var k :| 0 <= k < |longer| && longer[k].Succeed? && InOffice(first, longer[..k], id);
      assert k < n ==> steps[k].Succeed? && InOffice(first, steps[..k], id);
    }
    if Replaced(first, steps, id) {
      var k :| 0 <= k < n && steps[k].Succeed? && InOffice(first, steps[..k], id);
      assert longer[k].Succeed? && InOffice(first, longer[..k], id);
    }
    if act.Succeed? && InOffice(first, steps, id) {
      assert longer[n].Succeed? && InOffice(first, longer[..n], id);
    }
  }

  /** A realm's primes are those the history says. */
  ghost predicate PrimesOf(first: Realm, steps: seq<Act>, now: Realm, id: string) {
    && (now.acting.id == id <==> InOffice(first, steps, id))
    && (id in now.formers <==> id in first.formers || Replaced(first, steps, id))
  }

  lemma {:induction false} PrimesMove(first: Realm, steps: seq<Act>, now: Realm, act: Act, longer: seq<Act>,
                                      next: Realm, id: string)
    requires PrimesOf(first, steps, now, id) && longer == steps + [act] && next == After(now, act)
    ensures PrimesOf(first, longer, next, id)
  {
    OfficeMoves(first, steps, act, id);
    ReplacedMoves(first, steps, act, id);
  }

  lemma {:induction false} NothingYet(first: Realm, id: string)
    ensures PrimesOf(first, [], first, id)
  {
  }

  lemma {:induction false} FrontAndLast<T>(s: seq<T>)
    requires s != []
    ensures s == s[..|s| - 1] + [s[|s| - 1]]
  {
  }

  /** The registry an authority keeps is the history of its reign. */
  lemma {:induction false} RegistryIsHistory(first: Realm, steps: seq<Act>, id: string)
    ensures PrimesOf(first, steps, Reign(first, steps), id)
  {
    if steps == [] {
      NothingYet(first, id);
    } else {
      var front, act := steps[..|steps| - 1], steps[|steps| - 1];
      RegistryIsHistory(first, front, id);
      FrontAndLast(steps);
      PrimesMove(first, front, Reign(first, front), act, steps, Reign(first, steps), id);
    }
  }

  /**
   Under the authority's own registry, after any reign: Prime Hope may read; an identity may if and only if it claims to
   act and is the last successor, or the first prime when there was none, or claims to be former and was one from the
   start or was replaced by some succession; nobody else may. Without a registry the claimed role alone decides.
   */
  lemma {:induction false} ReadersExactly(first: Realm, steps: seq<Act>, reader: Reader)
    ensures Authorized(RegistryOf(Reign(first, steps)), reader) <==> MayRead(first, steps, reader)
    ensures Authorized(None, reader)
            <==> reader.PrimeHope? || (reader.Identity? && (reader.role.ActingRole? || reader.role.FormerRole?))
  {
    if reader.Identity? {
      RegistryIsHistory(first, steps, reader.id);
    }
  }

  /** The ids an authority starts with as Former Primes. */
  lemma {:induction false} SeededIds(fs: seq<Former>, id: string)
    ensures id in Seeded(fs) <==> exists i :: 0 <= i < |fs| && fs[i].prime.id == id
  {
    if fs != [] {
      var n := |fs| - 1;
      SeededIds(fs[..n], id);
      if i :| 0 <= i < n && fs[i].prime.id == id {
        assert fs[..n][i].prime.id == id;
      }
    }
  }

  /** Reading the ledger of an authority that has come through a reign. */
  method ReadUnder(authority: SovereignAuthority, reader: Reader, ghost first: Realm, ghost steps: seq<Act>)
    returns (r: Option<seq<Link<LedgerRecord>>>)
    requires authority.Valid() && authority.State() == Reign(first, steps)
    ensures r.Some? <==> MayRead(first, steps, reader)
    ensures r.Some? ==> r.value == Sealed(authority.ledger.hash, authority.ledger.history)
  {
    ReadersExactly(first, steps, reader);
    r := authority.ledger.Read(Some(Registry(authority.acting.id, authority.formers.Keys)), reader);
  }

  // ---------- what acts answer and record ----------

  /** Every Former Prime stands under his own id. */
  ghost predicate UnderOwnId(r: Realm) { forall id | id in r.formers :: r.formers[id].prime.id == id }

  lemma {:induction false} FormersStandUnderOwnId(first: Realm, steps: seq<Act>)
    requires UnderOwnId(first)
    ensures UnderOwnId(Reign(first, steps))
  {
    if steps != [] {
      FormersStandUnderOwnId(first, steps[..|steps| - 1]);
      OwnIdKept(Reign(first, steps[..|steps| - 1]), steps[|steps| - 1]);
    }
  }

  lemma {:induction false} OwnIdKept(r: Realm, act: Act)
    requires UnderOwnId(r)
    ensures UnderOwnId(After(r, act))
  {
  }

  /**
   The answer to a countermand: a stranger is refused, then an unknown directive; any other answer is the directive as
   it stands afterwards, countermanded by the first who asked.
   */
  lemma {:induction false} CountermandAnswers(r: Realm, formerId: string, id: string, reason: string, at: int,
                                              recordedAt: int)
    ensures var answer, now := Ruling(r, formerId, id, reason, at),
                               Countermanded(r, formerId, id, reason, at, recordedAt);
            && (answer.UnauthorizedCountermand? <==> formerId !in r.formers)
            && (answer.UnknownDirective? <==> formerId in r.formers && id !in r.directives)
            && (answer.Standing? ==> id in now.directives && answer.directive == now.directives[id]
                                     && !answer.directive.status.ACTIVE?)
            && (!answer.Standing? || !r.directives[id].status.ACTIVE? ==> now == r)
            && (answer.Standing? && r.directives[id].status.ACTIVE? ==>
                  && answer.directive.status == COUNTERMANDED(formerId, at, reason)
                  && |now.records| == |r.records| + 1
                  && var rec := now.records[|r.records|];
                  && rec.kind == OVERRIDE && rec.actorId == formerId && rec.timestamp == recordedAt
                  && Get(rec.data, "directiveId") == Some(Str(r.directives[id].id))
                  && Get(rec.data, "reason") == Some(Str(reason)))
  {
    if id in r.directives {
      ReasonRecorded(r.directives[id], formerId, reason, recordedAt);
    }
  }

  lemma {:induction false} ReasonRecorded(d: Directive, formerId: string, reason: string, at: int)
    ensures var data := CountermandRecord(d, formerId, reason, at).data;
            Get(data, "directiveId") == Some(Str(d.id)) && Get(data, "reason") == Some(Str(reason))
  {
    var data := CountermandRecord(d, formerId, reason, at).data;
    assert |"directiveId"| == 11 && |"issuedBy"| == 8 && |"command"| == 7 && |"reason"| == 6;
    assert Get(data.rest.rest.rest, "reason") == Some(Str(reason));
    assert Get(data.rest.rest, "reason") == Get(data.rest.rest.rest, "reason");
    assert Get(data.rest, "reason") == Get(data.rest.rest, "reason");
  }

  /** A succession is recorded as critical, by the successor, and says from whom to whom. */
  lemma {:induction false} SuccessionTells(r: Realm, successor: Prime, steppedDownAt: int, recordedAt: int)
    ensures var now := Succeeded(r, successor, steppedDownAt, recordedAt);
            && now.acting == successor && now.formers == r.formers[r.acting.id := Former(r.acting, steppedDownAt)]
            && |now.records| == |r.records| + 1 && now.records[..|r.records|] == r.records
            && var rec := now.records[|r.records|];
            && rec.kind == CRITICAL_OOB_DECISION && rec.actorId == successor.id && rec.timestamp == recordedAt
            && Get(rec.data, "from") == Some(Str(r.acting.id)) && Get(rec.data, "to") == Some(Str(successor.id))
  {
  }
}
