/** The rows of the three record-store tables the core reads and writes
    (`users`, `wallets`, `transactions`) and the identities that key them. */
module Records {
  import opened Wrappers

  /** A chat user's identity as the messaging transport reports it. */
  type TelegramId = nat
  /** The internal account id of a `users` row. */
  type UserId = nat
  /** The id of a `transactions` row. */
  type TxId = nat
  /** What the one-way PIN hash produces. */
  type Digest = string

  /** The `type` column of a transaction. */
  datatype Kind = Airtime | Data | Funding

  /** The `status` column of a transaction. */
  datatype TxStatus = Pending | Completed | Failed

  datatype UserRow = UserRow(
    id: UserId,
    telegramId: TelegramId,
    firstName: string,
    lastName: string,
    email: string,
    phoneNumber: string,
    pinHash: Option<Digest>)

  datatype TxRow = TxRow(
    id: TxId,
    userId: UserId,
    kind: Kind,
    amount: real,
    network: Option<string>,
    phoneNumber: Option<string>,
    status: TxStatus,
    reference: Option<string>,
    description: string)

  /** The record store's contents. `telegramIndex` is the lookup of a user row
      by `telegram_id`; `transactions` are kept in insertion (creation) order. */
  datatype Tables = Tables(
    users: map<UserId, UserRow>,
    telegramIndex: map<TelegramId, UserId>,
    nextUserId: UserId,
    wallets: map<UserId, real>,
    transactions: seq<TxRow>)

  /** The lower-case name the source uses for a kind. */
  function KindName(k: Kind): string {
    match k
    case Airtime => "airtime"
    case Data => "data"
    case Funding => "funding"
  }

  /** The store's integrity: ids handed out so far are below the next id and
      each user row is filed under its own id; `telegram_id` is unique, the
      index finds exactly the rows that carry each telegram id; a wallet
      belongs to an existing user; every transaction row's id is its
      position, so insertion order is also id order. */
  ghost predicate WellFormed(t: Tables) {
    && (forall id | id in t.users :: id < t.nextUserId && t.users[id].id == id)
    && (forall tg | tg in t.telegramIndex ::
          t.telegramIndex[tg] in t.users && t.users[t.telegramIndex[tg]].telegramId == tg)
    && (forall id | id in t.users ::
          t.users[id].telegramId in t.telegramIndex && t.telegramIndex[t.users[id].telegramId] == id)
    && (forall id | id in t.wallets :: id in t.users)
    && (forall k | 0 <= k < |t.transactions| :: t.transactions[k].id == k)
  }
}
