/** The shared record-store client every service writes through: one object
    whose tables the service calls update in place. */
module Store {
  import opened Records

  /** Which record-store call of a message fails. A store error is something
      the environment decides, so each call site that checks for one is named
      here and a message's environment lists the ones that fail. */
  datatype StoreCall =
    | FindUser          // users by telegram_id (every lookup of one message)
    | ReadBalance       // wallets.balance for a balance check
    | InsertUser        // createUser: the users insert
    | InsertWallet      // createUser: the wallets insert
    | DebitRead         // deductBalance: the read
    | DebitWrite        // deductBalance: the write
    | InsertRecord      // createTransaction
    | SettleRecord      // updateTransactionStatus
    | RefundRead        // addBalance: the read
    | RefundWrite       // addBalance: the write
    | WritePin          // setPIN
    | ReadPin           // verifyPIN
    | ListRecords       // getUserTransactions

  class Database {
    var users: map<UserId, UserRow>
    var telegramIndex: map<TelegramId, UserId>
    var nextUserId: UserId
    var wallets: map<UserId, real>
    var transactions: seq<TxRow>

    /** The store's contents as a value. */
    function Contents(): Tables
      reads this
    {
      Tables(users, telegramIndex, nextUserId, wallets, transactions)
    }

    /** A store whose tables are empty. */
    constructor ()
      ensures Contents() == Tables(map[], map[], 0, map[], [])
      ensures WellFormed(Contents())
    {
      users := map[];
      telegramIndex := map[];
      nextUserId := 0;
      wallets := map[];
      transactions := [];
    }
  }
}
