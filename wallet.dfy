/** The wallet ledger (walletService.js) as a function of the `wallets` table:
    a balance read, and the read-check-write update that refuses to take a
    balance below zero on a subtraction. Each store round trip may fail; the
    flags `readOk` and `writeOk` say whether it succeeds. */
module Ledger {
  import opened Records

  datatype BalanceResult = Balance(balance: real) | BalanceError

  datatype UpdateResult = Updated(newBalance: real) | InsufficientBalance | UpdateError

  /** `getWalletBalance`: a missing wallet is an error like any other. */
  function GetWalletBalance(wallets: map<UserId, real>, userId: UserId, readOk: bool): (r: BalanceResult)
    ensures r.Balance? <==> readOk && userId in wallets
    ensures r.Balance? ==> r.balance == wallets[userId]
  {
    if readOk && userId in wallets then Balance(wallets[userId]) else BalanceError
  }

  /** `updateBalance`: the result and the `wallets` table afterwards. Any
      operation other than `add` subtracts, but only `subtract` is checked
      against going below zero. */
  function UpdateBalance(wallets: map<UserId, real>, userId: UserId, amount: real,
                         readOk: bool, writeOk: bool, operation: string := "add"): (UpdateResult, map<UserId, real>)
  {
    if !readOk || userId !in wallets then (UpdateError, wallets)
    else
      var current := wallets[userId];
      var newBalance := if operation == "add" then current + amount else current - amount;
      if newBalance < 0.0 && operation == "subtract" then (InsufficientBalance, wallets)
      else if !writeOk then (UpdateError, wallets)
      else (Updated(newBalance), wallets[userId := newBalance])
  }

  function DeductBalance(wallets: map<UserId, real>, userId: UserId, amount: real,
                         readOk: bool, writeOk: bool): (UpdateResult, map<UserId, real>)
  {
    UpdateBalance(wallets, userId, amount, readOk, writeOk, "subtract")
  }

  function AddBalance(wallets: map<UserId, real>, userId: UserId, amount: real,
                      readOk: bool, writeOk: bool): (UpdateResult, map<UserId, real>)
  {
    UpdateBalance(wallets, userId, amount, readOk, writeOk, "add")
  }

  /** An update that does not succeed leaves the table as it was; one that
      succeeds stores exactly the balance it reports, in the wallet of
      `userId` and no other. */
  lemma UpdateTouchesOnlyItsWallet(wallets: map<UserId, real>, userId: UserId, amount: real,
                                   readOk: bool, writeOk: bool, operation: string)
    ensures var (r, after) := UpdateBalance(wallets, userId, amount, readOk, writeOk, operation);
      && (!r.Updated? ==> after == wallets)
      && (r.Updated? ==> userId in wallets && after.Keys == wallets.Keys && after[userId] == r.newBalance)
      && (forall v | v in wallets && v != userId :: after[v] == wallets[v])
  {
  }

  /** `new = old + amount` for `add`, the default, and `new = old - amount`
      for any other operation. */
  lemma UpdateArithmetic(wallets: map<UserId, real>, userId: UserId, amount: real,
                         readOk: bool, writeOk: bool, operation: string)
    requires UpdateBalance(wallets, userId, amount, readOk, writeOk, operation).0.Updated?
    ensures var nb := UpdateBalance(wallets, userId, amount, readOk, writeOk, operation).0.newBalance;
      nb == if operation == "add" then wallets[userId] + amount else wallets[userId] - amount
  {
  }

  /** `add` is what an update does when no operation is named. */
  lemma AddIsTheDefault(wallets: map<UserId, real>, userId: UserId, amount: real, readOk: bool, writeOk: bool)
    ensures UpdateBalance(wallets, userId, amount, readOk, writeOk) == AddBalance(wallets, userId, amount, readOk, writeOk)
  {
  }

  /** A deduction is refused for insufficient funds exactly when the wallet
      can be read and holds less than the amount; a deduction that succeeds
      leaves a non-negative balance. */
  lemma DeductNeverOverdraws(wallets: map<UserId, real>, userId: UserId, amount: real, readOk: bool, writeOk: bool)
    ensures var (r, after) := DeductBalance(wallets, userId, amount, readOk, writeOk);
      && (r == InsufficientBalance <==> readOk && userId in wallets && wallets[userId] < amount)
      && (r.Updated? ==> r.newBalance >= 0.0 && r.newBalance == wallets[userId] - amount)
      && (r.Updated? <==> readOk && writeOk && userId in wallets && wallets[userId] >= amount)
  {
  }

  /** The non-negativity check guards subtraction only: an addition always
      succeeds when both round trips do, whatever the amount, so a negative
      amount can take a balance below zero. */
  lemma AddHasNoLowerBound(wallets: map<UserId, real>, userId: UserId, amount: real)
    requires userId in wallets
    ensures AddBalance(wallets, userId, amount, true, true).0 == Updated(wallets[userId] + amount)
    ensures wallets[userId] + amount < 0.0 ==> AddBalance(wallets, userId, amount, true, true).1[userId] < 0.0
  {
  }

  /** Without a wallet row both the read and the update fail, rather than
      throw. */
  lemma MissingWalletFails(wallets: map<UserId, real>, userId: UserId, amount: real,
                           readOk: bool, writeOk: bool, operation: string)
    requires userId !in wallets
    ensures GetWalletBalance(wallets, userId, readOk) == BalanceError
    ensures UpdateBalance(wallets, userId, amount, readOk, writeOk, operation) == (UpdateError, wallets)
  {
  }

  /** A deduction followed by an addition of the same amount gives back the
      table the deduction started from, provided both round trips of the
      addition succeed; otherwise the addition changes nothing. */
  lemma DeductThenAddRestores(wallets: map<UserId, real>, userId: UserId, amount: real,
                              readOk: bool, writeOk: bool, refundReadOk: bool, refundWriteOk: bool)
    requires DeductBalance(wallets, userId, amount, readOk, writeOk).0.Updated?
    ensures var after := DeductBalance(wallets, userId, amount, readOk, writeOk).1;
      var (r, restored) := AddBalance(after, userId, amount, refundReadOk, refundWriteOk);
      && (refundReadOk && refundWriteOk ==> r == Updated(wallets[userId]) && restored == wallets)
      && (!(refundReadOk && refundWriteOk) ==> r == UpdateError && restored == after)
  {
    var after := DeductBalance(wallets, userId, amount, readOk, writeOk).1;
    assert after == wallets[userId := wallets[userId] - amount];
    if refundReadOk && refundWriteOk {
      assert after[userId := wallets[userId] - amount + amount] == wallets;
    }
  }

  /** Every operation keeps an all-non-negative table non-negative when it
      subtracts, or adds a non-negative amount. */
  lemma UpdateKeepsNonNegative(wallets: map<UserId, real>, userId: UserId, amount: real,
                               readOk: bool, writeOk: bool, operation: string)
    requires forall v | v in wallets :: wallets[v] >= 0.0
    requires operation == "subtract" || (operation == "add" && amount >= 0.0)
    ensures var after := UpdateBalance(wallets, userId, amount, readOk, writeOk, operation).1;
      forall v | v in after :: after[v] >= 0.0
  {
  }
}

/** The wallet service's calls as actions on the shared store. */
module WalletService {
  import opened Records
  import opened Store
  import Ledger

  method GetWalletBalance(db: Database, userId: UserId, readOk: bool) returns (r: Ledger.BalanceResult)
    ensures r == Ledger.GetWalletBalance(db.wallets, userId, readOk)
  {
    if !readOk || userId !in db.wallets {
      return Ledger.BalanceError;
    }
    return Ledger.Balance(db.wallets[userId]);
  }

  /** Read the balance, compute the new one, refuse a subtraction that goes
      below zero, then write. */
  method UpdateBalance(db: Database, userId: UserId, amount: real, readOk: bool, writeOk: bool,
                       operation: string := "add") returns (r: Ledger.UpdateResult)
    modifies db`wallets
    ensures (r, db.wallets) == Ledger.UpdateBalance(old(db.wallets), userId, amount, readOk, writeOk, operation)
  {
    if !readOk || userId !in db.wallets {
      return Ledger.UpdateError;
    }
    var currentBalance := db.wallets[userId];
    var newBalance := if operation == "add" then currentBalance + amount else currentBalance - amount;
    if newBalance < 0.0 && operation == "subtract" {
      return Ledger.InsufficientBalance;
    }
    if !writeOk {
      return Ledger.UpdateError;
    }
    db.wallets := db.wallets[userId := newBalance];
    return Ledger.Updated(newBalance);
  }

  method DeductBalance(db: Database, userId: UserId, amount: real, readOk: bool, writeOk: bool)
    returns (r: Ledger.UpdateResult)
    modifies db`wallets
    ensures (r, db.wallets) == Ledger.DeductBalance(old(db.wallets), userId, amount, readOk, writeOk)
  {
    r := UpdateBalance(db, userId, amount, readOk, writeOk, "subtract");
  }

  method AddBalance(db: Database, userId: UserId, amount: real, readOk: bool, writeOk: bool)
    returns (r: Ledger.UpdateResult)
    modifies db`wallets
    ensures (r, db.wallets) == Ledger.AddBalance(old(db.wallets), userId, amount, readOk, writeOk)
  {
    r := UpdateBalance(db, userId, amount, readOk, writeOk, "add");
  }
}
