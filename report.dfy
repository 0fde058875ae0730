/** The monthly report's aggregation over a list of transaction rows
    (messageHandler.js `handleMonthlyReport`): four sums over completed rows
    and three counts. Which rows fall in the month is decided by a store query
    that is not part of this model; the aggregation takes the rows as given. */
module Report {
  import opened Records

  /** The sum of the amounts of the completed rows of one kind. */
  function Spent(rows: seq<TxRow>, kind: Kind): real {
    if rows == [] then 0.0
    else (if rows[0].status == Completed && rows[0].kind == kind then rows[0].amount else 0.0) + Spent(rows[1..], kind)
  }

  /** The sum of the amounts of the completed rows that are not fundings. */
  function TotalSpent(rows: seq<TxRow>): real {
    if rows == [] then 0.0
    else (if rows[0].status == Completed && rows[0].kind != Funding then rows[0].amount else 0.0) + TotalSpent(rows[1..])
  }

  /** The number of rows with the given status. */
  function CountStatus(rows: seq<TxRow>, status: TxStatus): nat {
    if rows == [] then 0
    else (if rows[0].status == status then 1 else 0) + CountStatus(rows[1..], status)
  }

  /** The figures the report prints. */
  datatype Summary = Summary(
    totalFunded: real,
    totalSpent: real,
    netFlow: real,
    airtimeSpent: real,
    dataSpent: real,
    count: nat,
    successful: nat,
    failed: nat)

  /** The spending breakdown accounts for all of the spending, and the
      successful and failed counts never exceed the number of rows. */
  function Summarise(rows: seq<TxRow>): (r: Summary)
    ensures r.airtimeSpent + r.dataSpent == r.totalSpent
    ensures r.successful + r.failed <= r.count == |rows|
    ensures r.netFlow == r.totalFunded - r.totalSpent
  {
    SpendingBreakdown(rows);
    StatusCountsPartition(rows);
    var funded := Spent(rows, Funding);
    var spent := TotalSpent(rows);
    Summary(funded, spent, funded - spent, Spent(rows, Airtime), Spent(rows, Data),
            |rows|, CountStatus(rows, Completed), CountStatus(rows, Failed))
  }

  /** A spending row is an airtime or a data row, so the two breakdown lines
      add up to the total spent. */
  lemma {:induction false} SpendingBreakdown(rows: seq<TxRow>)
    ensures Spent(rows, Airtime) + Spent(rows, Data) == TotalSpent(rows)
  {
    if rows != [] {
      SpendingBreakdown(rows[1..]);
    }
  }

  /** Every row has exactly one of the three statuses. */
  lemma {:induction false} StatusCountsPartition(rows: seq<TxRow>)
    ensures CountStatus(rows, Completed) + CountStatus(rows, Failed) + CountStatus(rows, Pending) == |rows|
  {
    if rows != [] {
      StatusCountsPartition(rows[1..]);
    }
  }

  /** With non-negative amounts each breakdown line is at most the total. */
  lemma {:induction false} BreakdownBoundedByTotal(rows: seq<TxRow>)
    requires forall k | 0 <= k < |rows| :: rows[k].amount >= 0.0
    ensures 0.0 <= Spent(rows, Airtime) <= TotalSpent(rows)
    ensures 0.0 <= Spent(rows, Data) <= TotalSpent(rows)
  {
    if rows != [] {
      BreakdownBoundedByTotal(rows[1..]);
      SpendingBreakdown(rows);
      SpendingBreakdown(rows[1..]);
    }
  }

  /** A pending or failed row, and a funding, does not count as spending. */
  lemma {:induction false} OnlyCompletedSpendingCounts(rows: seq<TxRow>, extra: TxRow)
    requires extra.status != Completed || extra.kind == Funding
    ensures TotalSpent(rows + [extra]) == TotalSpent(rows)
  {
    if rows != [] {
      assert (rows + [extra])[1..] == rows[1..] + [extra];
      OnlyCompletedSpendingCounts(rows[1..], extra);
    } else {
      assert [extra][1..] == [];
    }
  }
}
