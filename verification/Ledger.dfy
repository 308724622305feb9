/** The billing ledger: one row per dispatch, append-only. */
module Ledger {
  import opened Text
  import opened Money
  import opened Schema

  /** The trace stored with a row: how the token begins, and the verdict. */
  datatype Signature = NoToken | Signed(tokenHead: string, allowed: bool, constraints: seq<Constraint>)

  /** A row; `cost` is in whole micro-USD, the six places the ledger keeps. */
  datatype LedgerRow = LedgerRow(id: string, packetId: string, timestamp: int, source: AgentRole,
                                 destination: AgentRole, status: Status, cost: int, signature: Signature)

  /** What a caller asks to have recorded. */
  datatype LogRequest = LogRequest(packetId: string, timestamp: int, source: AgentRole, destination: AgentRole,
                                   status: Status, cost: real, signature: Signature)

  /** The observable outcome of one dispatch. */
  datatype DispatchEvent = DispatchEvent(packetId: string, source: AgentRole, destination: AgentRole, status: Status,
                                         durationMs: real, cost: real, knoll: Verdict)

  function RowFor(rows: seq<LedgerRow>, r: LogRequest): LedgerRow {
    LedgerRow(SerialId("led_", |rows| + 1), r.packetId, r.timestamp, r.source, r.destination, r.status, Round(r.cost),
              r.signature)
  }

  /** Total cost of the rows with a status, or of all of them. */
  function Cost(rows: seq<LedgerRow>, status: Option<Status>): int {
    if rows == [] then 0
    else
      var r := rows[|rows| - 1];
      Cost(rows[..|rows| - 1], status) + (if status.None? || status.value == r.status then r.cost else 0)
  }

  /** Only successful deliveries are billed. */
  predicate OnlySuccessBilled(rows: seq<LedgerRow>) {
    forall i | 0 <= i < |rows| :: !rows[i].status.SUCCESS? ==> rows[i].cost == 0
  }

  lemma {:induction false} TotalIsSuccessCost(rows: seq<LedgerRow>)
    requires OnlySuccessBilled(rows)
    ensures Cost(rows, None) == Cost(rows, Some(SUCCESS))
  {
    if rows != [] {
      TotalIsSuccessCost(rows[..|rows| - 1]);
    }
  }

  lemma {:induction false} CostAppend(rows: seq<LedgerRow>, r: LedgerRow, status: Option<Status>)
    ensures Cost(rows + [r], status)
         == Cost(rows, status) + (if status.None? || status.value == r.status then r.cost else 0)
  {
    assert (rows + [r])[..|rows|] == rows;
  }

  class InMemoryLedger {
    var rows: seq<LedgerRow>
    var seqNo: nat

    ghost predicate Valid()
      reads this
    {
      seqNo == |rows|
    }

    constructor ()
      ensures Valid() && rows == []
    {
      rows, seqNo := [], 0;
    }

    method LogRequest(r: LogRequest) returns (row: LedgerRow)
      requires Valid()
      modifies this
      ensures Valid() && row == RowFor(old(rows), r) && rows == old(rows) + [row]
    {
      seqNo := seqNo + 1;
      row := LedgerRow(SerialId("led_", seqNo), r.packetId, r.timestamp, r.source, r.destination, r.status,
                       Round(r.cost), r.signature);
      rows := rows + [row];
    }

    method TotalCost() returns (total: int)
      ensures total == Cost(rows, None)
    {
      total := CostByStatus(None);
    }

    method CostByStatus(status: Option<Status>) returns (total: int)
      ensures total == Cost(rows, status)
    {
      total := 0;
      var i := 0;
      while i < |rows|
        invariant 0 <= i <= |rows| && total == Cost(rows[..i], status)
      {
        if status.None? || status.value == rows[i].status {
          total := total + rows[i].cost;
        }
        CostAppend(rows[..i], rows[i], status);
        TakeNext(rows, i);
        i := i + 1;
      }
      TakeAll(rows, i);
    }

    method Clear()
      modifies this
      ensures Valid() && rows == []
    {
      rows, seqNo := [], 0;
    }
  }
}
