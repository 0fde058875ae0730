/** The message handler as the object the bot holds (messageHandler.js
    `MessageHandler`): a map of pending dialog steps that its methods update in
    place, and the shared store the services write through. Each method does
    its work step by step through the service calls and is proved to end in
    the dialog state, store contents, reply and outgoing calls that the
    function of the same name in `Dialog` gives for the state it started in. */
module Handler {
  import opened Wrappers
  import opened Strings
  import opened Records
  import opened Intents
  import opened Validation
  import opened Dialog
  import Store
  import Vtpass
  import Ledger
  import TxTable
  import UserTable
  import WalletService
  import TransactionService
  import UserService
  import DialogInvariant

  class MessageHandler {
    /** `userStates`: the pending step of each sender. */
    var userStates: States
    /** The store client the services share. */
    const db: Store.Database

    /** A handler with no pending steps. */
    constructor (db: Store.Database)
      ensures this.db == db && userStates == map[]
    {
      this.db := db;
      userStates := map[];
    }

    /** `handleMessage`. Every message also keeps the dialog invariant. */
    method HandleMessage(tg: TelegramId, text: string, env: Env) returns (reply: Reply, calls: seq<Call>)
      modifies this, db
      ensures Outcome(userStates, db.Contents(), reply, calls)
              == Dialog.HandleMessage(old(userStates), old(db.Contents()), tg, text, env)
      ensures DialogInvariant.Inv(old(userStates), old(db.Contents())) ==>
              DialogInvariant.Inv(userStates, db.Contents())
    {
      ghost var before := userStates;
      ghost var beforeDb := db.Contents();
      var user := UserService.GetUserByTelegramId(db, tg, Ok(env, Store.FindUser));
      if user.None? && text != "/start" {
        reply, calls := PleaseRegister, [];
      } else if tg in userStates {
        reply, calls := HandleUserState(tg, text, userStates[tg], env);
      } else if StartsWith(text, "/") {
        reply, calls := HandleCommand(tg, text, env);
      } else {
        reply, calls := HandleIntent(tg, ParseIntent(text, env), env);
      }
      if DialogInvariant.Inv(before, beforeDb) {
        DialogInvariant.InvPreserved(before, beforeDb, tg, text, env);
      }
    }

    /** `handleCommand`. */
    method HandleCommand(tg: TelegramId, command: string, env: Env) returns (reply: Reply, calls: seq<Call>)
      modifies this
      ensures Outcome(userStates, db.Contents(), reply, calls)
              == Dialog.HandleCommand(old(userStates), old(db.Contents()), tg, command, env)
    {
      calls := [];
      if command == "/start" {
        reply := HandleStart(tg, env);
      } else if command == "/balance" {
        reply := HandleBalanceCheck(tg, env);
      } else if command == "/help" {
        reply := Help;
      } else {
        reply := UnknownCommand;
      }
    }

    /** `handleStart`. */
    method HandleStart(tg: TelegramId, env: Env) returns (reply: Reply)
      modifies this
      ensures Quiet(userStates, db.Contents(), reply) == Dialog.HandleStart(old(userStates), old(db.Contents()), tg, env)
    {
      var user := UserService.GetUserByTelegramId(db, tg, Ok(env, Store.FindUser));
      match user
      case Some(u) =>
        reply := WelcomeBack(u.firstName);
      case None =>
        userStates := userStates[tg := FirstName];
        reply := AskFirstName;
    }

    /** `handleUserState`. */
    method HandleUserState(tg: TelegramId, text: string, state: State, env: Env) returns (reply: Reply, calls: seq<Call>)
      modifies this, db
      ensures Outcome(userStates, db.Contents(), reply, calls)
              == Dialog.HandleUserState(old(userStates), old(db.Contents()), tg, text, state, env)
    {
      ghost var states0, db0 := userStates, db.Contents();
      calls := [];
      match state
      case FirstName =>
        var first := Trim(text);
        userStates := userStates[tg := LastName(first)];
        reply := AskLastName(first);
      case LastName(first) =>
        var last := Trim(text);
        userStates := userStates[tg := Email(first, last)];
        reply := AskEmail(first, last);
      case Email(first, last) =>
        if !IsValidEmail(text) {
          reply := InvalidEmail;
        } else {
          userStates := userStates[tg := PhoneNumber(first, last, Trim(text))];
          reply := AskPhoneNumber;
        }
      case PhoneNumber(first, last, email) =>
        assert Dialog.HandleUserState(states0, db0, tg, text, state, env)
            == Dialog.AnswerPhoneNumber(states0, db0, tg, text, first, last, email, env);
        reply := AnswerPhoneNumber(tg, text, first, last, email, env);
      case SetPIN(userId) =>
        assert Dialog.HandleUserState(states0, db0, tg, text, state, env) == Dialog.AnswerPin(states0, db0, tg, text, userId, env);
        reply := AnswerPin(tg, text, userId, env);
      case ConfirmPurchase(p) =>
        assert Dialog.HandleUserState(states0, db0, tg, text, state, env)
            == Dialog.AnswerConfirmation(states0, db0, tg, text, p, env);
        reply, calls := AnswerConfirmation(tg, text, p, env);
      case EnterPIN(p) =>
        assert Dialog.HandleUserState(states0, db0, tg, text, state, env) == Dialog.AnswerPinEntry(states0, db0, tg, text, p, env);
        reply, calls := AnswerPinEntry(tg, text, p, env);
      case FundAmount =>
        assert Dialog.HandleUserState(states0, db0, tg, text, state, env) == Dialog.AnswerFundAmount(states0, db0, tg, text, env);
        reply, calls := AnswerFundAmount(tg, text, env);
    }

    /** The phone-number step: validate, then create the account. */
    method AnswerPhoneNumber(tg: TelegramId, text: string, first: string, last: string, email: string, env: Env)
      returns (reply: Reply)
      modifies this, db
      ensures Quiet(userStates, db.Contents(), reply)
              == Dialog.AnswerPhoneNumber(old(userStates), old(db.Contents()), tg, text, first, last, email, env)
    {
      if !IsValidPhoneNumber(text) {
        reply := InvalidPhoneNumber;
      } else {
        var reg := UserTable.Registration(first, last, email, Trim(text));
        var r := UserService.CreateUser(db, tg, reg, Ok(env, Store.InsertUser), Ok(env, Store.InsertWallet));
        if r.UserCreated? {
          userStates := userStates[tg := SetPIN(r.user.id)];
          reply := AccountReadyAskPIN;
        } else {
          userStates := userStates - {tg};
          reply := RegistrationFailed(r.UserExists?);
        }
      }
    }

    /** The set-PIN step: validate, then store the hash. */
    method AnswerPin(tg: TelegramId, text: string, userId: UserId, env: Env) returns (reply: Reply)
      modifies this, db
      ensures Quiet(userStates, db.Contents(), reply)
              == Dialog.AnswerPin(old(userStates), old(db.Contents()), tg, text, userId, env)
    {
      if !IsValidPIN(text) {
        reply := InvalidPINFormat;
      } else {
        var ok := UserService.SetPIN(db, userId, Trim(text), env.hash, Ok(env, Store.WritePin));
        userStates := userStates - {tg};
        reply := if ok then SetupComplete else PINNotSaved;
      }
    }

    /** The confirmation step: `yes` buys, anything else cancels. */
    method AnswerConfirmation(tg: TelegramId, text: string, p: Purchase, env: Env) returns (reply: Reply, calls: seq<Call>)
      modifies this, db
      ensures Outcome(userStates, db.Contents(), reply, calls)
              == Dialog.AnswerConfirmation(old(userStates), old(db.Contents()), tg, text, p, env)
    {
      if Lower(text) == "yes" {
        reply, calls := ProcessPurchase(tg, p, env);
      } else {
        userStates := userStates - {tg};
        reply, calls := PurchaseCancelled, [];
      }
    }

    /** The PIN-entry step: a matching PIN buys, anything else cancels. */
    method AnswerPinEntry(tg: TelegramId, text: string, p: Purchase, env: Env) returns (reply: Reply, calls: seq<Call>)
      modifies this, db
      ensures Outcome(userStates, db.Contents(), reply, calls)
              == Dialog.AnswerPinEntry(old(userStates), old(db.Contents()), tg, text, p, env)
    {
      ghost var states0, db0 := userStates, db.Contents();
      var verdict := UserService.VerifyPIN(db, p.userId, Trim(text), env.compare, Ok(env, Store.ReadPin));
      if verdict == UserTable.PinMatches {
        PinEntryMatches(states0, db0, tg, text, p, env);
        reply, calls := ProcessPurchase(tg, p, env);
      } else {
        PinEntryRefused(states0, db0, tg, text, p, env);
        userStates := userStates - {tg};
        reply, calls := WrongPINCancelled, [];
      }
    }

    /** The funding-amount step: at least 100, then the payment link. */
    method AnswerFundAmount(tg: TelegramId, text: string, env: Env) returns (reply: Reply, calls: seq<Call>)
      modifies this
      ensures Outcome(userStates, db.Contents(), reply, calls)
              == Dialog.AnswerFundAmount(old(userStates), old(db.Contents()), tg, text, env)
    {
      match env.parseFloat(text)
      case None =>
        reply, calls := InvalidFundAmount, [];
      case Some(amount) =>
        if amount < 100.0 {
          reply, calls := InvalidFundAmount, [];
        } else {
          reply, calls := GeneratePaymentLink(tg, amount, env);
        }
    }

    /** `handleIntent`. */
    method HandleIntent(tg: TelegramId, intent: ResolvedIntent, env: Env) returns (reply: Reply, calls: seq<Call>)
      modifies this
      ensures Outcome(userStates, db.Contents(), reply, calls)
              == Dialog.HandleIntent(old(userStates), old(db.Contents()), tg, intent, env)
    {
      var user := UserService.GetUserByTelegramId(db, tg, Ok(env, Store.FindUser));
      calls := [];
      match intent.intent
      case BalanceCheck =>
        reply := HandleBalanceCheck(tg, env);
      case WalletFund =>
        if AmountGiven(intent.amount) {
          reply, calls := GeneratePaymentLink(tg, intent.amount.value, env);
        } else {
          userStates := userStates[tg := FundAmount];
          reply := AskFundAmount;
        }
      case AirtimePurchase =>
        reply := HandleAirtimePurchase(tg, intent, env);
      case DataPurchase =>
        reply := HandleDataPurchase(tg, intent, env);
      case Transactions =>
        reply := HandleTransactionHistory(tg, env);
      case MonthlyReport =>
        reply := SomethingWentWrong;
      case SetPin =>
        reply := OpenSetPin(tg, user);
      case ChangePin =>
        reply := OpenSetPin(tg, user);
      case Unknown =>
        reply := NotUnderstood;
    }

    /** The set-PIN and change-PIN intents both open the set-PIN step. */
    method OpenSetPin(tg: TelegramId, user: Option<UserRow>) returns (reply: Reply)
      modifies this
      ensures Quiet(userStates, db.Contents(), reply) == SetPinStep(old(userStates), db.Contents(), tg, user)
    {
      match user
      case None =>
        reply := SomethingWentWrong;
      case Some(u) =>
        userStates := userStates[tg := SetPIN(u.id)];
        reply := AskNewPIN;
    }

    /** `handleBalanceCheck`. */
    method HandleBalanceCheck(tg: TelegramId, env: Env) returns (reply: Reply)
      ensures Quiet(userStates, db.Contents(), reply) == Dialog.HandleBalanceCheck(userStates, db.Contents(), tg, env)
    {
      var user := UserService.GetUserByTelegramId(db, tg, Ok(env, Store.FindUser));
      match user
      case None =>
        reply := SomethingWentWrong;
      case Some(u) =>
        var balance := WalletService.GetWalletBalance(db, u.id, Ok(env, Store.ReadBalance));
        match balance
        case Balance(b) =>
          reply := BalanceShown(b, b < 100.0);
        case BalanceError =>
          reply := BalanceUnavailable;
    }

    /** `handleAirtimePurchase`. */
    method HandleAirtimePurchase(tg: TelegramId, intent: ResolvedIntent, env: Env) returns (reply: Reply)
      modifies this
      ensures Quiet(userStates, db.Contents(), reply)
              == Dialog.HandleAirtimePurchase(old(userStates), old(db.Contents()), tg, intent, env)
    {
      var user := UserService.GetUserByTelegramId(db, tg, Ok(env, Store.FindUser));
      if !AmountGiven(intent.amount) || !TextGiven(intent.network) || !TextGiven(intent.phoneNumber) {
        reply := MissingAirtimeDetails;
        return;
      }
      match user
      case None =>
        reply := SomethingWentWrong;
      case Some(u) =>
        var amount := intent.amount.value;
        var balance := WalletService.GetWalletBalance(db, u.id, Ok(env, Store.ReadBalance));
        if !balance.Balance? || balance.balance < amount {
          reply := InsufficientFunds;
        } else {
          var p := Purchase(u.id, Airtime, amount, intent.network.value, intent.phoneNumber.value, None);
          userStates := userStates[tg := ConfirmPurchase(p)];
          reply := ConfirmAirtime(p);
        }
    }

    /** `handleDataPurchase`. */
    method HandleDataPurchase(tg: TelegramId, intent: ResolvedIntent, env: Env) returns (reply: Reply)
      modifies this
      ensures Quiet(userStates, db.Contents(), reply)
              == Dialog.HandleDataPurchase(old(userStates), old(db.Contents()), tg, intent, env)
    {
      var user := UserService.GetUserByTelegramId(db, tg, Ok(env, Store.FindUser));
      if !TextGiven(intent.network) || !TextGiven(intent.dataSize) {
        reply := MissingDataDetails;
        return;
      }
      var network := intent.network.value;
      var plans := Vtpass.DataPlans(network);
      match Vtpass.FindPlan(plans, intent.dataSize.value)
      case None =>
        reply := PlanNotFound(network, plans);
      case Some(plan) =>
        match user
        case None =>
          reply := SomethingWentWrong;
        case Some(u) =>
          var balance := WalletService.GetWalletBalance(db, u.id, Ok(env, Store.ReadBalance));
          if !balance.Balance? || balance.balance < plan.amount {
            reply := InsufficientFunds;
          } else {
            var phone := if TextGiven(intent.phoneNumber) then intent.phoneNumber.value else u.phoneNumber;
            var p := Purchase(u.id, Data, plan.amount, network, phone, intent.dataSize);
            userStates := userStates[tg := ConfirmPurchase(p)];
            reply := ConfirmData(p, plan.name);
          }
    }

    /** `processPurchase`: clear the step, debit, record as pending, call the
        provider, settle the record, and on failure add the amount back
        without looking at what the addition returns. */
    method ProcessPurchase(tg: TelegramId, p: Purchase, env: Env) returns (reply: Reply, calls: seq<Call>)
      modifies this, db
      ensures Outcome(userStates, db.Contents(), reply, calls)
              == Dialog.ProcessPurchase(old(userStates), old(db.Contents()), tg, p, env)
    {
      userStates := userStates - {tg};
      var debit := WalletService.DeductBalance(db, p.userId, p.amount, Ok(env, Store.DebitRead), Ok(env, Store.DebitWrite));
      if !debit.Updated? {
        reply, calls := DebitRefused(debit == Ledger.InsufficientBalance), [];
        return;
      }
      var record := TransactionService.CreateTransaction(db, p.userId, PendingRecord(p), Ok(env, Store.InsertRecord));
      calls := ProviderCalls(p, env);
      var result := ProviderResult(p, env);
      if record.Created? {
        var settled := TransactionService.UpdateTransactionStatus(
          db, record.row.id, if result.success then Completed else Failed, Ok(env, Store.SettleRecord));
      }
      if result.success {
        reply := PurchaseSucceeded(result.message, result.reference, debit.newBalance);
      } else {
        var refund := WalletService.AddBalance(db, p.userId, p.amount, Ok(env, Store.RefundRead), Ok(env, Store.RefundWrite));
        reply := PurchaseFailedRefunded(result.message);
      }
    }

    /** `handleTransactionHistory`. */
    method HandleTransactionHistory(tg: TelegramId, env: Env) returns (reply: Reply)
      ensures Quiet(userStates, db.Contents(), reply) == Dialog.HandleTransactionHistory(userStates, db.Contents(), tg, env)
    {
      var user := UserService.GetUserByTelegramId(db, tg, Ok(env, Store.FindUser));
      match user
      case None =>
        reply := SomethingWentWrong;
      case Some(u) =>
        var listing := TransactionService.GetUserTransactions(db, u.id, Ok(env, Store.ListRecords));
        match listing
        case ListError =>
          reply := NoTransactions;
        case Listed(rows) =>
          reply := if rows == [] then NoTransactions else TransactionList(rows);
    }

    /** `generatePaymentLink`. */
    method GeneratePaymentLink(tg: TelegramId, amount: real, env: Env) returns (reply: Reply, calls: seq<Call>)
      modifies this
      ensures Outcome(userStates, db.Contents(), reply, calls)
              == Dialog.GeneratePaymentLink(old(userStates), old(db.Contents()), tg, amount, env)
    {
      var user := UserService.GetUserByTelegramId(db, tg, Ok(env, Store.FindUser));
      match user
      case None =>
        reply, calls := SomethingWentWrong, [];
      case Some(u) =>
        var reference := FundReference(tg, env.now);
        calls := [PaymentLinkCall(u.email, amount, reference, u.id, tg)];
        userStates := userStates - {tg};
        match env.link
        case LinkIssued(url) =>
          reply := PaymentLinkReady(amount, reference, url);
        case LinkRefused =>
          reply := PaymentLinkFailed;
    }
  }

  /** A matching PIN goes on to the purchase. */
  lemma PinEntryMatches(states: States, db: Tables, tg: TelegramId, text: string, p: Purchase, env: Env)
    requires UserTable.VerifyPIN(db, p.userId, Trim(text), env.compare, Ok(env, Store.ReadPin)) == UserTable.PinMatches
    ensures Dialog.AnswerPinEntry(states, db, tg, text, p, env) == Dialog.ProcessPurchase(states, db, tg, p, env)
  {
  }

  /** Any other verdict cancels the purchase and clears the step. */
  lemma PinEntryRefused(states: States, db: Tables, tg: TelegramId, text: string, p: Purchase, env: Env)
    requires UserTable.VerifyPIN(db, p.userId, Trim(text), env.compare, Ok(env, Store.ReadPin)) != UserTable.PinMatches
    ensures Dialog.AnswerPinEntry(states, db, tg, text, p, env) == Quiet(states - {tg}, db, WrongPINCancelled)
  {
  }
}
