/** The `transactions` table (transactionService.js) as a sequence of rows in
    insertion order, which is also `created_at` order: inserting appends a row
    whose id is its position, a status update rewrites the `status` of the
    rows with the given id, and a listing reads one user's rows newest first. */
module TxTable {
  import opened Wrappers
  import opened Records

  /** The `transactionData` a caller passes to `createTransaction`; a field the
      caller leaves out is `None`. */
  datatype NewTx = NewTx(
    kind: Kind,
    amount: real,
    network: Option<string>,
    phoneNumber: Option<string>,
    status: Option<TxStatus>,
    reference: Option<string>,
    description: string)

  datatype CreateResult = Created(row: TxRow) | CreateError

  datatype ListResult = Listed(rows: seq<TxRow>) | ListError

  /** `createTransaction`: the inserted row, with `pending` when the caller
      gives no status, and the table afterwards. */
  function CreateTransaction(rows: seq<TxRow>, userId: UserId, data: NewTx, insertOk: bool): (CreateResult, seq<TxRow>) {
    if !insertOk then (CreateError, rows)
    else
      var row := TxRow(|rows|, userId, data.kind, data.amount, data.network, data.phoneNumber,
                       data.status.GetOr(Pending), data.reference, data.description);
      (Created(row), rows + [row])
  }

  /** `updateTransactionStatus`: success, and the table afterwards. An id no
      row carries matches nothing, which the store reports as success. */
  function UpdateTransactionStatus(rows: seq<TxRow>, id: TxId, status: TxStatus, writeOk: bool): (bool, seq<TxRow>) {
    if !writeOk then (false, rows)
    else (true, seq(|rows|, k requires 0 <= k < |rows| => if rows[k].id == id then rows[k].(status := status) else rows[k]))
  }

  /** The rows of `userId`, newest first. */
  function NewestFirst(rows: seq<TxRow>, userId: UserId): seq<TxRow> {
    if rows == [] then []
    else
      var last := rows[|rows| - 1];
      (if last.userId == userId then [last] else []) + NewestFirst(rows[..|rows| - 1], userId)
  }

  /** `getUserTransactions`: at most `limit` of the user's rows, newest
      first; five when the caller names no limit. */
  function GetUserTransactions(rows: seq<TxRow>, userId: UserId, readOk: bool, limit: nat := 5): (r: ListResult)
    ensures r.Listed? <==> readOk
  {
    if !readOk then ListError
    else
      var all := NewestFirst(rows, userId);
      Listed(if |all| <= limit then all else all[..limit])
  }

  // ---------------------------------------------------------------------
  // Properties
  // ---------------------------------------------------------------------

  /** An insert stores every field the caller gave, under the caller's user
      id, defaults the status to `pending`, and leaves the earlier rows alone. */
  lemma CreateStoresTheRow(rows: seq<TxRow>, userId: UserId, data: NewTx)
    ensures var (r, after) := CreateTransaction(rows, userId, data, true);
      && r.Created? && after == rows + [r.row] && r.row.id == |rows|
      && r.row.userId == userId && r.row.kind == data.kind && r.row.amount == data.amount
      && r.row.network == data.network && r.row.phoneNumber == data.phoneNumber
      && r.row.reference == data.reference && r.row.description == data.description
      && r.row.status == (if data.status.Some? then data.status.value else Pending)
  {
  }

  /** A failed insert leaves the table as it was. */
  lemma CreateFailureChangesNothing(rows: seq<TxRow>, userId: UserId, data: NewTx)
    ensures CreateTransaction(rows, userId, data, false) == (CreateError, rows)
  {
  }

  /** A status update changes the `status` of the rows carrying the id and
      nothing else: every other field of every row, and every other row, is
      left as it was. */
  lemma UpdateChangesOnlyStatus(rows: seq<TxRow>, id: TxId, status: TxStatus, writeOk: bool)
    ensures var (ok, after) := UpdateTransactionStatus(rows, id, status, writeOk);
      && ok == writeOk && |after| == |rows|
      && (forall k | 0 <= k < |rows| ::
            after[k] == if writeOk && rows[k].id == id then rows[k].(status := status) else rows[k])
  {
  }

  /** Updating an id that no row carries reports success and changes nothing. */
  lemma UpdateOfMissingIdIsNoOp(rows: seq<TxRow>, id: TxId, status: TxStatus)
    requires forall k | 0 <= k < |rows| :: rows[k].id != id
    ensures UpdateTransactionStatus(rows, id, status, true) == (true, rows)
  {
    var after := UpdateTransactionStatus(rows, id, status, true).1;
    assert |after| == |rows| && forall k | 0 <= k < |rows| :: after[k] == rows[k];
    assert after == rows;
  }

  /** The rows whose id is their position stay so under both writes. */
  lemma WritesKeepIdsPositional(rows: seq<TxRow>, userId: UserId, data: NewTx, insertOk: bool,
                                id: TxId, status: TxStatus, writeOk: bool)
    requires forall k | 0 <= k < |rows| :: rows[k].id == k
    ensures var after := CreateTransaction(rows, userId, data, insertOk).1;
      forall k | 0 <= k < |after| :: after[k].id == k
    ensures var after := UpdateTransactionStatus(rows, id, status, writeOk).1;
      forall k | 0 <= k < |after| :: after[k].id == k
  {
  }

  /** The newest-first list holds exactly the user's rows. */
  lemma {:induction false} NewestFirstHoldsTheUsersRows(rows: seq<TxRow>, userId: UserId, x: TxRow)
    ensures x in NewestFirst(rows, userId) <==> x in rows && x.userId == userId
  {
    if rows != [] {
      var init := rows[..|rows| - 1];
      NewestFirstHoldsTheUsersRows(init, userId, x);
      assert rows == init + [rows[|rows| - 1]];
    }
  }

  /** Strictly decreasing id order: from the newest row to the oldest when
      ids are positions. */
  predicate Descending(r: seq<TxRow>) {
    forall i, j | 0 <= i < j < |r| :: r[i].id > r[j].id
  }

  /** When ids are positions, the newest-first list is in descending order. */
  lemma {:induction false} NewestFirstIsDescending(rows: seq<TxRow>, userId: UserId)
    requires forall k | 0 <= k < |rows| :: rows[k].id == k
    ensures Descending(NewestFirst(rows, userId))
  {
    if rows != [] {
      var init := rows[..|rows| - 1];
      var last := rows[|rows| - 1];
      NewestFirstIsDescending(init, userId);
      var rest := NewestFirst(init, userId);
      forall y | y in rest ensures y.id < last.id {
        NewestFirstHoldsTheUsersRows(init, userId, y);
        var k :| 0 <= k < |init| && init[k] == y;
      }
      var r := NewestFirst(rows, userId);
      if last.userId == userId {
        assert r == [last] + rest;
        forall i, j | 0 <= i < j < |r| ensures r[i].id > r[j].id {
          if i == 0 {
            assert r[j] == rest[j - 1] && r[j] in rest;
          } else {
            assert r[i] == rest[i - 1] && r[j] == rest[j - 1];
          }
        }
      } else {
        assert r == rest;
      }
    }
  }

  /** A listing is a prefix of the user's newest-first rows: only the user's
      own rows, newest first, as many as there are up to `limit`. */
  lemma ListingIsNewestPrefix(rows: seq<TxRow>, userId: UserId, limit: nat)
    requires forall k | 0 <= k < |rows| :: rows[k].id == k
    ensures var r := GetUserTransactions(rows, userId, true, limit).rows;
      var all := NewestFirst(rows, userId);
      && |r| == (if |all| <= limit then |all| else limit)
      && r == all[..|r|]
      && (forall x | x in r :: x in rows && x.userId == userId)
      && Descending(r)
  {
    var all := NewestFirst(rows, userId);
    NewestFirstIsDescending(rows, userId);
    forall x | x in all ensures x in rows && x.userId == userId {
      NewestFirstHoldsTheUsersRows(rows, userId, x);
    }
  }
}

/** The transaction service's calls as actions on the shared store. */
module TransactionService {
  import opened Records
  import opened Store
  import TxTable

  method CreateTransaction(db: Database, userId: UserId, data: TxTable.NewTx, insertOk: bool)
    returns (r: TxTable.CreateResult)
    modifies db`transactions
    ensures (r, db.transactions) == TxTable.CreateTransaction(old(db.transactions), userId, data, insertOk)
  {
    if !insertOk {
      return TxTable.CreateError;
    }
    var row := TxRow(|db.transactions|, userId, data.kind, data.amount, data.network, data.phoneNumber,
                     data.status.GetOr(Pending), data.reference, data.description);
    db.transactions := db.transactions + [row];
    return TxTable.Created(row);
  }

  /** Rewrite the status of every row carrying the id, one row at a time. */
  method UpdateTransactionStatus(db: Database, id: TxId, status: TxStatus, writeOk: bool) returns (ok: bool)
    modifies db`transactions
    ensures (ok, db.transactions) == TxTable.UpdateTransactionStatus(old(db.transactions), id, status, writeOk)
  {
    if !writeOk {
      return false;
    }
    var k := 0;
    while k < |db.transactions|
      invariant 0 <= k <= |db.transactions| == |old(db.transactions)|
      invariant forall j | 0 <= j < |db.transactions| ::
        db.transactions[j] == if j < k && old(db.transactions)[j].id == id
                              then old(db.transactions)[j].(status := status)
                              else old(db.transactions)[j]
    {
      if db.transactions[k].id == id {
        db.transactions := db.transactions[k := db.transactions[k].(status := status)];
      }
      k := k + 1;
    }
    ghost var spec := TxTable.UpdateTransactionStatus(old(db.transactions), id, status, writeOk).1;
    assert |spec| == |db.transactions| && forall j | 0 <= j < |spec| :: spec[j] == db.transactions[j];
    assert spec == db.transactions;
    return true;
  }

  method GetUserTransactions(db: Database, userId: UserId, readOk: bool, limit: nat := 5)
    returns (r: TxTable.ListResult)
    ensures r == TxTable.GetUserTransactions(db.transactions, userId, readOk, limit)
  {
    r := TxTable.GetUserTransactions(db.transactions, userId, readOk, limit);
  }
}
