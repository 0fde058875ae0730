/** The message handler's behaviour as a function of the dialog states and
    the store's contents (messageHandler.js). A message is handled in a fixed
    precedence: the registration gate, then the sender's pending dialog step,
    then a slash command, then a free-text intent. Replies are tags; calls to
    the airtime provider and the payment-link provider are listed in the
    order they are made. Everything a message's collaborators decide (store
    failures, the language model's reading, the provider's answer, the clock)
    comes in as an environment. */
module Dialog {
  import opened Wrappers
  import opened Strings
  import opened Records
  import opened Intents
  import opened Store
  import opened Validation
  import Nlp
  import Vtpass
  import Ledger
  import TxTable
  import UserTable

  // ---------------------------------------------------------------------
  // Dialog state, environment, replies
  // ---------------------------------------------------------------------

  /** A purchase waiting for confirmation (the `data` of `confirmPurchase`). */
  datatype Purchase = Purchase(
    userId: UserId,
    kind: Kind,
    amount: real,
    network: string,
    phoneNumber: string,
    dataSize: Option<string>)

  /** The `{step, data}` kept per chat user; each step carries the data the
      source keeps beside it. */
  datatype State =
    | FirstName
    | LastName(firstName: string)
    | Email(firstName: string, lastName: string)
    | PhoneNumber(firstName: string, lastName: string, email: string)
    | SetPIN(userId: UserId)
    | ConfirmPurchase(purchase: Purchase)
    | EnterPIN(purchase: Purchase)
    | FundAmount

  type States = map<TelegramId, State>

  /** What the payment-link provider answers. */
  datatype LinkReply = LinkIssued(url: string) | LinkRefused

  /** The collaborators' side of one message. */
  datatype Env = Env(
    failing: set<StoreCall>,
    llm: Option<ResolvedIntent>,
    parseFloat: string -> Option<real>,
    demo: bool,
    provider: Vtpass.ProviderReply,
    link: LinkReply,
    now: nat,
    hash: string -> Digest,
    compare: (string, Digest) -> bool)

  predicate Ok(env: Env, call: StoreCall) {
    call !in env.failing
  }

  /** An outbound call to a provider. */
  datatype Call =
    | ProviderCall(request: Vtpass.PayRequest)
    | PaymentLinkCall(email: string, amount: real, reference: string, userId: UserId, telegramId: TelegramId)

  datatype Reply =
    | PleaseRegister
    | SomethingWentWrong
    | UnknownCommand
    | Help
    | WelcomeBack(firstName: string)
    | AskFirstName
    | AskLastName(firstName: string)
    | AskEmail(firstName: string, lastName: string)
    | InvalidEmail
    | AskPhoneNumber
    | InvalidPhoneNumber
    | AccountReadyAskPIN
    | RegistrationFailed(alreadyRegistered: bool)
    | InvalidPINFormat
    | SetupComplete
    | PINNotSaved
    | PurchaseCancelled
    | WrongPINCancelled
    | InvalidFundAmount
    | AskFundAmount
    | AskNewPIN
    | NotUnderstood
    | BalanceShown(balance: real, low: bool)
    | BalanceUnavailable
    | MissingAirtimeDetails
    | MissingDataDetails
    | PlanNotFound(network: string, plans: seq<Vtpass.Plan>)
    | InsufficientFunds
    | ConfirmAirtime(purchase: Purchase)
    | ConfirmData(purchase: Purchase, planName: string)
    | DebitRefused(insufficient: bool)
    | PurchaseSucceeded(message: string, providerReference: Option<string>, newBalance: real)
    | PurchaseFailedRefunded(message: string)
    | NoTransactions
    | TransactionList(rows: seq<TxRow>)
    | PaymentLinkReady(fundAmount: real, fundReference: string, url: string)
    | PaymentLinkFailed

  /** The dialog states, the store and the reply after one message, with the
      provider calls it made. */
  datatype Outcome = Outcome(states: States, db: Tables, reply: Reply, calls: seq<Call>)

  function Quiet(states: States, db: Tables, reply: Reply): Outcome {
    Outcome(states, db, reply, [])
  }

  // ---------------------------------------------------------------------
  // JavaScript truthiness of the intent's parameters
  // ---------------------------------------------------------------------

  /** A number parameter is truthy when present and not zero. */
  predicate AmountGiven(a: Option<real>) {
    a.Some? && a.value != 0.0
  }

  /** A text parameter is truthy when present and not empty. */
  predicate TextGiven(s: Option<string>) {
    s.Some? && s.value != ""
  }

  // ---------------------------------------------------------------------
  // Lookups every handler repeats
  // ---------------------------------------------------------------------

  function FindUser(db: Tables, tg: TelegramId, env: Env): Option<UserRow> {
    UserTable.GetUserByTelegramId(db, tg, Ok(env, Store.FindUser))
  }

  /** `parseIntent`: the language model's reading when it gives one,
      otherwise the pattern-matching parser's. */
  function ParseIntent(text: string, env: Env): ResolvedIntent {
    match env.llm
    case Some(r) => r
    case None => Nlp.ParseIntentFallback(text)
  }

  /** `FUND_<telegram id>_<now>`. */
  function FundReference(tg: TelegramId, now: nat): string {
    "FUND_" + NatToString(tg) + "_" + NatToString(now)
  }

  // ---------------------------------------------------------------------
  // The handlers
  // ---------------------------------------------------------------------

  /** `handleMessage`. */
  function HandleMessage(states: States, db: Tables, tg: TelegramId, text: string, env: Env): Outcome {
    var user := FindUser(db, tg, env);
    if user.None? && text != "/start" then Quiet(states, db, PleaseRegister)
    else if tg in states then HandleUserState(states, db, tg, text, states[tg], env)
    else if StartsWith(text, "/") then HandleCommand(states, db, tg, text, env)
    else HandleIntent(states, db, tg, ParseIntent(text, env), env)
  }

  /** `handleCommand`. */
  function HandleCommand(states: States, db: Tables, tg: TelegramId, command: string, env: Env): Outcome {
    if command == "/start" then HandleStart(states, db, tg, env)
    else if command == "/balance" then HandleBalanceCheck(states, db, tg, env)
    else if command == "/help" then Quiet(states, db, Help)
    else Quiet(states, db, UnknownCommand)
  }

  /** `handleStart`: greet an account holder, otherwise begin registration. */
  function HandleStart(states: States, db: Tables, tg: TelegramId, env: Env): Outcome {
    match FindUser(db, tg, env)
    case Some(user) => Quiet(states, db, WelcomeBack(user.firstName))
    case None => Quiet(states[tg := FirstName], db, AskFirstName)
  }

  /** `handleUserState`: the message is input to the pending step. */
  function HandleUserState(states: States, db: Tables, tg: TelegramId, text: string, state: State, env: Env): Outcome {
    match state
    case FirstName =>
      var first := Trim(text);
      Quiet(states[tg := LastName(first)], db, AskLastName(first))
    case LastName(first) =>
      var last := Trim(text);
      Quiet(states[tg := Email(first, last)], db, AskEmail(first, last))
    case Email(first, last) =>
      if !IsValidEmail(text) then Quiet(states, db, InvalidEmail)
      else Quiet(states[tg := PhoneNumber(first, last, Trim(text))], db, AskPhoneNumber)
    case PhoneNumber(first, last, email) => AnswerPhoneNumber(states, db, tg, text, first, last, email, env)
    case SetPIN(userId) => AnswerPin(states, db, tg, text, userId, env)
    case ConfirmPurchase(p) => AnswerConfirmation(states, db, tg, text, p, env)
    case EnterPIN(p) => AnswerPinEntry(states, db, tg, text, p, env)
    case FundAmount => AnswerFundAmount(states, db, tg, text, env)
  }

  /** The phone-number step: validate, then create the account and move on
      to the PIN step, or end the dialog when creation fails. */
  function AnswerPhoneNumber(states: States, db: Tables, tg: TelegramId, text: string,
                             first: string, last: string, email: string, env: Env): Outcome {
    if !IsValidPhoneNumber(text) then Quiet(states, db, InvalidPhoneNumber)
    else
      var reg := UserTable.Registration(first, last, email, Trim(text));
      var (r, db1) := UserTable.CreateUser(db, tg, reg, Ok(env, InsertUser), Ok(env, InsertWallet));
      if r.UserCreated? then Quiet(states[tg := SetPIN(r.user.id)], db1, AccountReadyAskPIN)
      else Quiet(states - {tg}, db1, RegistrationFailed(r.UserExists?))
  }

  /** The set-PIN step: validate, then store the hash and end the dialog. */
  function AnswerPin(states: States, db: Tables, tg: TelegramId, text: string, userId: UserId, env: Env): Outcome {
    if !IsValidPIN(text) then Quiet(states, db, InvalidPINFormat)
    else
      var (ok, db1) := UserTable.SetPIN(db, userId, Trim(text), env.hash, Ok(env, WritePin));
      Quiet(states - {tg}, db1, if ok then SetupComplete else PINNotSaved)
  }

  /** The confirmation step: `yes` in any letter case buys, anything else
      cancels. */
  function AnswerConfirmation(states: States, db: Tables, tg: TelegramId, text: string, p: Purchase, env: Env): Outcome {
    if Lower(text) == "yes" then ProcessPurchase(states, db, tg, p, env)
    else Quiet(states - {tg}, db, PurchaseCancelled)
  }

  /** The PIN-entry step: a matching PIN buys, anything else cancels. */
  function AnswerPinEntry(states: States, db: Tables, tg: TelegramId, text: string, p: Purchase, env: Env): Outcome {
    if UserTable.VerifyPIN(db, p.userId, Trim(text), env.compare, Ok(env, ReadPin)) == UserTable.PinMatches
    then ProcessPurchase(states, db, tg, p, env)
    else Quiet(states - {tg}, db, WrongPINCancelled)
  }

  /** The funding-amount step: a number of at least 100 goes to the payment
      link; anything else re-prompts. */
  function AnswerFundAmount(states: States, db: Tables, tg: TelegramId, text: string, env: Env): Outcome {
    match env.parseFloat(text)
    case None => Quiet(states, db, InvalidFundAmount)
    case Some(amount) =>
      if amount < 100.0 then Quiet(states, db, InvalidFundAmount)
      else GeneratePaymentLink(states, db, tg, amount, env)
  }

  /** `handleIntent`. The monthly report calls a store query the transaction
      service does not define, which throws. */
  function HandleIntent(states: States, db: Tables, tg: TelegramId, intent: ResolvedIntent, env: Env): Outcome {
    var user := FindUser(db, tg, env);
    match intent.intent
    case BalanceCheck => HandleBalanceCheck(states, db, tg, env)
    case WalletFund =>
      if AmountGiven(intent.amount) then GeneratePaymentLink(states, db, tg, intent.amount.value, env)
      else Quiet(states[tg := FundAmount], db, AskFundAmount)
    case AirtimePurchase => HandleAirtimePurchase(states, db, tg, intent, env)
    case DataPurchase => HandleDataPurchase(states, db, tg, intent, env)
    case Transactions => HandleTransactionHistory(states, db, tg, env)
    case MonthlyReport => Quiet(states, db, SomethingWentWrong)
    case SetPin => SetPinStep(states, db, tg, user)
    case ChangePin => SetPinStep(states, db, tg, user)
    case Unknown => Quiet(states, db, NotUnderstood)
  }

  function SetPinStep(states: States, db: Tables, tg: TelegramId, user: Option<UserRow>): Outcome {
    match user
    case None => Quiet(states, db, SomethingWentWrong)
    case Some(u) => Quiet(states[tg := SetPIN(u.id)], db, AskNewPIN)
  }

  /** `handleBalanceCheck`. */
  function HandleBalanceCheck(states: States, db: Tables, tg: TelegramId, env: Env): Outcome {
    match FindUser(db, tg, env)
    case None => Quiet(states, db, SomethingWentWrong)
    case Some(user) =>
      match Ledger.GetWalletBalance(db.wallets, user.id, Ok(env, ReadBalance))
      case Balance(b) => Quiet(states, db, BalanceShown(b, b < 100.0))
      case BalanceError => Quiet(states, db, BalanceUnavailable)
  }

  /** `handleAirtimePurchase`: all three details, then enough balance, then a
      confirmation step. */
  function HandleAirtimePurchase(states: States, db: Tables, tg: TelegramId, intent: ResolvedIntent, env: Env): Outcome {
    var user := FindUser(db, tg, env);
    if !AmountGiven(intent.amount) || !TextGiven(intent.network) || !TextGiven(intent.phoneNumber) then
      Quiet(states, db, MissingAirtimeDetails)
    else match user
      case None => Quiet(states, db, SomethingWentWrong)
      case Some(u) =>
        var amount := intent.amount.value;
        var balance := Ledger.GetWalletBalance(db.wallets, u.id, Ok(env, ReadBalance));
        if !balance.Balance? || balance.balance < amount then Quiet(states, db, InsufficientFunds)
        else
          var p := Purchase(u.id, Airtime, amount, intent.network.value, intent.phoneNumber.value, None);
          Quiet(states[tg := ConfirmPurchase(p)], db, ConfirmAirtime(p))
  }

  /** `handleDataPurchase`: network and size, then a plan whose name contains
      the size, then enough balance for its price, then a confirmation step.
      The phone defaults to the account's own number. */
  function HandleDataPurchase(states: States, db: Tables, tg: TelegramId, intent: ResolvedIntent, env: Env): Outcome {
    var user := FindUser(db, tg, env);
    if !TextGiven(intent.network) || !TextGiven(intent.dataSize) then Quiet(states, db, MissingDataDetails)
    else
      var network := intent.network.value;
      var plans := Vtpass.DataPlans(network);
      match Vtpass.FindPlan(plans, intent.dataSize.value)
      case None => Quiet(states, db, PlanNotFound(network, plans))
      case Some(plan) =>
        match user
        case None => Quiet(states, db, SomethingWentWrong)
        case Some(u) =>
          var balance := Ledger.GetWalletBalance(db.wallets, u.id, Ok(env, ReadBalance));
          if !balance.Balance? || balance.balance < plan.amount then Quiet(states, db, InsufficientFunds)
          else
            var phone := if TextGiven(intent.phoneNumber) then intent.phoneNumber.value else u.phoneNumber;
            var p := Purchase(u.id, Data, plan.amount, network, phone, intent.dataSize);
            Quiet(states[tg := ConfirmPurchase(p)], db, ConfirmData(p, plan.name))
  }

  /** The record `processPurchase` creates before calling the provider. */
  function PendingRecord(p: Purchase): TxTable.NewTx {
    TxTable.NewTx(p.kind, p.amount, Some(p.network), Some(p.phoneNumber), Some(Pending), None,
                  KindName(p.kind) + " purchase - " + p.network)
  }

  /** The provider's result for a purchase. */
  function ProviderResult(p: Purchase, env: Env): Vtpass.ServiceResult {
    if p.kind == Airtime then Vtpass.PurchaseAirtime(env.demo, env.now, env.provider)
    else Vtpass.PurchaseData(env.demo, env.now, env.provider)
  }

  /** The request a purchase posts; none is posted in demo mode. */
  function ProviderCalls(p: Purchase, env: Env): seq<Call> {
    if env.demo then []
    else if p.kind == Airtime then [ProviderCall(Vtpass.AirtimePayRequest(p.network, p.amount, p.phoneNumber, env.now))]
    else [ProviderCall(Vtpass.DataPayRequest(p.network, p.dataSize.GetOr(""), p.phoneNumber, env.now))]
  }

  /** The debit the purchase starts with, taken from the buyer's wallet. */
  function Debit(db: Tables, p: Purchase, env: Env): (Ledger.UpdateResult, map<UserId, real>) {
    Ledger.DeductBalance(db.wallets, p.userId, p.amount, Ok(env, DebitRead), Ok(env, DebitWrite))
  }

  /** `processPurchase`: clear the step, debit, record as pending, call the
      provider, settle the record if it was created, and on failure add the
      amount back. What that addition returns is not looked at. */
  function ProcessPurchase(states: States, db: Tables, tg: TelegramId, p: Purchase, env: Env): Outcome {
    var states1 := states - {tg};
    var (debit, wallets1) := Debit(db, p, env);
    if !debit.Updated? then Quiet(states1, db, DebitRefused(debit == Ledger.InsufficientBalance))
    else
      var (record, txs1) := TxTable.CreateTransaction(db.transactions, p.userId, PendingRecord(p), Ok(env, InsertRecord));
      var result := ProviderResult(p, env);
      var txs2 := if record.Created? then
          TxTable.UpdateTransactionStatus(txs1, record.row.id, if result.success then Completed else Failed,
                                          Ok(env, SettleRecord)).1
        else txs1;
      var calls := ProviderCalls(p, env);
      if result.success then
        Outcome(states1, db.(wallets := wallets1, transactions := txs2),
                PurchaseSucceeded(result.message, result.reference, debit.newBalance), calls)
      else
        var wallets2 := Ledger.AddBalance(wallets1, p.userId, p.amount, Ok(env, RefundRead), Ok(env, RefundWrite)).1;
        Outcome(states1, db.(wallets := wallets2, transactions := txs2), PurchaseFailedRefunded(result.message), calls)
  }

  /** `handleTransactionHistory`: the five newest rows. */
  function HandleTransactionHistory(states: States, db: Tables, tg: TelegramId, env: Env): Outcome {
    match FindUser(db, tg, env)
    case None => Quiet(states, db, SomethingWentWrong)
    case Some(user) =>
      match TxTable.GetUserTransactions(db.transactions, user.id, Ok(env, ListRecords), 5)
      case ListError => Quiet(states, db, NoTransactions)
      case Listed(rows) => Quiet(states, db, if rows == [] then NoTransactions else TransactionList(rows))
  }

  /** `generatePaymentLink`: ask for a link tagged with a fresh reference,
      then clear the step whatever the answer. */
  function GeneratePaymentLink(states: States, db: Tables, tg: TelegramId, amount: real, env: Env): Outcome {
    match FindUser(db, tg, env)
    case None => Quiet(states, db, SomethingWentWrong)
    case Some(user) =>
      var reference := FundReference(tg, env.now);
      var reply := match env.link
        case LinkIssued(url) => PaymentLinkReady(amount, reference, url)
        case LinkRefused => PaymentLinkFailed;
      Outcome(states - {tg}, db, reply, [PaymentLinkCall(user.email, amount, reference, user.id, tg)])
  }
}
