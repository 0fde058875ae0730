/** What the message handler promises, proved about its model: the order in
    which a message is dispatched, the registration steps, the purchase
    requests and the purchase itself, funding, and an invariant every message
    keeps. */
module DialogLaws {
  import opened Wrappers
  import opened Strings
  import opened Records
  import opened Intents
  import Store
  import opened Validation
  import opened Dialog
  import Vtpass
  import Ledger
  import TxTable
  import UserTable

  // ---------------------------------------------------------------------
  // Dispatch order
  // ---------------------------------------------------------------------

  /** A sender without an account (or whose lookup fails) who types anything
      but `/start` is asked to register, and nothing changes. */
  lemma GateBlocksUnregistered(states: States, db: Tables, tg: TelegramId, text: string, env: Env)
    requires UserTable.FindByTelegramId(db, tg).None? || !Ok(env, Store.FindUser)
    requires text != "/start"
    ensures HandleMessage(states, db, tg, text, env) == Quiet(states, db, PleaseRegister)
  {
  }

  /** A pending step takes precedence over commands and intents: past the
      gate, the message is input to the step, even when it is `/start`. */
  lemma PendingStepTakesPrecedence(states: States, db: Tables, tg: TelegramId, text: string, env: Env)
    requires FindUser(db, tg, env).Some? || text == "/start"
    requires tg in states
    ensures HandleMessage(states, db, tg, text, env) == HandleUserState(states, db, tg, text, states[tg], env)
  {
  }

  /** With no pending step, a slash command goes to the command handler and
      anything else to the intent handler. */
  lemma CommandsBeforeIntents(states: States, db: Tables, tg: TelegramId, text: string, env: Env)
    requires FindUser(db, tg, env).Some?
    requires tg !in states
    ensures StartsWith(text, "/") ==> HandleMessage(states, db, tg, text, env) == HandleCommand(states, db, tg, text, env)
    ensures !StartsWith(text, "/") ==>
      HandleMessage(states, db, tg, text, env) == HandleIntent(states, db, tg, ParseIntent(text, env), env)
  {
  }

  // ---------------------------------------------------------------------
  // Registration
  // ---------------------------------------------------------------------

  /** Four valid answers from the first-name step create an account holding
      the four trimmed answers, give it an empty wallet and move on to the PIN
      step. */
  lemma RegistrationCollectsTrimmedAnswers(states: States, db: Tables, tg: TelegramId,
                                           t1: string, t2: string, t3: string, t4: string, env: Env)
    requires WellFormed(db)
    requires UserTable.FindByTelegramId(db, tg).None?
    requires tg in states && states[tg] == FirstName
    requires IsValidEmail(t3) && IsValidPhoneNumber(t4)
    requires Ok(env, Store.InsertUser) && Ok(env, Store.InsertWallet)
    ensures HandleUserState(states, db, tg, t1, FirstName, env).states == states[tg := LastName(Trim(t1))]
    ensures HandleUserState(states, db, tg, t1, FirstName, env).db == db
    ensures var s1 := states[tg := LastName(Trim(t1))];
      && HandleUserState(s1, db, tg, t2, s1[tg], env).states == states[tg := Email(Trim(t1), Trim(t2))]
      && HandleUserState(s1, db, tg, t2, s1[tg], env).db == db
    ensures var s2 := states[tg := Email(Trim(t1), Trim(t2))];
      && HandleUserState(s2, db, tg, t3, s2[tg], env).states == states[tg := PhoneNumber(Trim(t1), Trim(t2), Trim(t3))]
      && HandleUserState(s2, db, tg, t3, s2[tg], env).db == db
    ensures var s3 := states[tg := PhoneNumber(Trim(t1), Trim(t2), Trim(t3))];
      var o4 := HandleUserState(s3, db, tg, t4, s3[tg], env);
      && o4.reply == AccountReadyAskPIN
      && tg in o4.states && o4.states[tg].SetPIN?
      && UserTable.FindByTelegramId(o4.db, tg)
           == Some(UserRow(o4.states[tg].userId, tg, Trim(t1), Trim(t2), Trim(t3), Trim(t4), None))
      && o4.db.wallets == db.wallets[o4.states[tg].userId := 0.0]
  {
    NameSteps(states, db, tg, t1, env);
    var s1 := states[tg := LastName(Trim(t1))];
    NameSteps(s1, db, tg, t2, env);
    Overwrite(states, tg, LastName(Trim(t1)), Email(Trim(t1), Trim(t2)));
    var s2 := states[tg := Email(Trim(t1), Trim(t2))];
    NameSteps(s2, db, tg, t3, env);
    Overwrite(states, tg, Email(Trim(t1), Trim(t2)), PhoneNumber(Trim(t1), Trim(t2), Trim(t3)));
    var s3 := states[tg := PhoneNumber(Trim(t1), Trim(t2), Trim(t3))];
    var reg := UserTable.Registration(Trim(t1), Trim(t2), Trim(t3), Trim(t4));
    UserTable.CreateUserSucceeds(db, tg, reg);
    PhoneStep(s3, db, tg, t4, reg, env);
  }

  lemma Overwrite(states: States, tg: TelegramId, a: State, b: State)
    ensures states[tg := a][tg := b] == states[tg := b]
  {
  }

  /** One answer in each of the first three steps, written out. */
  lemma NameSteps(states: States, db: Tables, tg: TelegramId, text: string, env: Env)
    ensures HandleUserState(states, db, tg, text, FirstName, env)
      == Quiet(states[tg := LastName(Trim(text))], db, AskLastName(Trim(text)))
    ensures forall f ::
      HandleUserState(states, db, tg, text, LastName(f), env)
        == Quiet(states[tg := Email(f, Trim(text))], db, AskEmail(f, Trim(text)))
    ensures IsValidEmail(text) ==>
      forall f, l ::
        HandleUserState(states, db, tg, text, Email(f, l), env)
          == Quiet(states[tg := PhoneNumber(f, l, Trim(text))], db, AskPhoneNumber)
  {
  }

  /** A valid phone number with both inserts succeeding, written out. */
  lemma PhoneStep(states: States, db: Tables, tg: TelegramId, text: string, reg: UserTable.Registration, env: Env)
    requires IsValidPhoneNumber(text) && reg.phoneNumber == Trim(text)
    requires Ok(env, Store.InsertUser) && Ok(env, Store.InsertWallet)
    requires UserTable.CreateUser(db, tg, reg, true, true).0.UserCreated?
    ensures var (r, db1) := UserTable.CreateUser(db, tg, reg, true, true);
      HandleUserState(states, db, tg, text, PhoneNumber(reg.firstName, reg.lastName, reg.email), env)
        == Quiet(states[tg := SetPIN(r.user.id)], db1, AccountReadyAskPIN)
  {
  }

  /** An invalid e-mail address, phone number or PIN re-prompts and keeps the
      step and everything collected so far. */
  lemma InvalidInputKeepsStep(states: States, db: Tables, tg: TelegramId, text: string, env: Env)
    requires tg in states
    ensures states[tg].Email? && !IsValidEmail(text) ==>
      HandleUserState(states, db, tg, text, states[tg], env) == Quiet(states, db, InvalidEmail)
    ensures states[tg].PhoneNumber? && !IsValidPhoneNumber(text) ==>
      HandleUserState(states, db, tg, text, states[tg], env) == Quiet(states, db, InvalidPhoneNumber)
    ensures states[tg].SetPIN? && !IsValidPIN(text) ==>
      HandleUserState(states, db, tg, text, states[tg], env) == Quiet(states, db, InvalidPINFormat)
  {
  }

  /** A failed account creation ends the dialog; a successful one leaves the
      step holding only the new account's id. */
  lemma AccountCreationEndsOrAdvances(states: States, db: Tables, tg: TelegramId, text: string, env: Env)
    requires tg in states && states[tg].PhoneNumber? && IsValidPhoneNumber(text)
    ensures var o := HandleUserState(states, db, tg, text, states[tg], env);
      && (o.reply.RegistrationFailed? ==> o.states == states - {tg})
      && (!o.reply.RegistrationFailed? ==>
            o.reply == AccountReadyAskPIN && tg in o.states && o.states[tg].SetPIN?
            && UserTable.FindByTelegramId(o.db, tg).Some?
            && UserTable.FindByTelegramId(o.db, tg).value.id == o.states[tg].userId
            && o.states == states[tg := o.states[tg]])
  {
    var s := states[tg];
    var reg := UserTable.Registration(s.firstName, s.lastName, s.email, Trim(text));
    var (r, db1) := UserTable.CreateUser(db, tg, reg, Ok(env, Store.InsertUser), Ok(env, Store.InsertWallet));
    if r.UserCreated? {
      assert UserTable.FindByTelegramId(db1, tg) == Some(r.user);
    }
  }

  // ---------------------------------------------------------------------
  // Purchase requests
  // ---------------------------------------------------------------------

  /** An airtime request sets the confirmation step exactly when amount,
      network and phone are all given and the balance covers the amount, and
      then the step holds exactly those details; otherwise no step is set. A
      request never touches the store or calls a provider. */
  lemma AirtimeRequestOutcome(states: States, db: Tables, tg: TelegramId, intent: ResolvedIntent, env: Env)
    ensures var o := HandleAirtimePurchase(states, db, tg, intent, env);
      var user := FindUser(db, tg, env);
      var proceeds := && AmountGiven(intent.amount) && TextGiven(intent.network) && TextGiven(intent.phoneNumber)
                      && user.Some?
                      && Ledger.GetWalletBalance(db.wallets, user.value.id, Ok(env, Store.ReadBalance)).Balance?
                      && Ledger.GetWalletBalance(db.wallets, user.value.id, Ok(env, Store.ReadBalance)).balance
                           >= intent.amount.value;
      && o.db == db && o.calls == []
      && (!proceeds ==> o.states == states)
      && (proceeds ==> o.states == states[tg := ConfirmPurchase(
            Purchase(user.value.id, Airtime, intent.amount.value, intent.network.value, intent.phoneNumber.value, None))])
  {
  }

  /** A data request sets the confirmation step exactly when network and size
      are given, some plan's name contains the size, and the balance covers
      that plan's price; the step then holds the plan's price and, when the
      request names no phone, the account's own number. */
  lemma DataRequestOutcome(states: States, db: Tables, tg: TelegramId, intent: ResolvedIntent, env: Env)
    ensures var o := HandleDataPurchase(states, db, tg, intent, env);
      var user := FindUser(db, tg, env);
      var plan := if TextGiven(intent.network) && TextGiven(intent.dataSize)
                  then Vtpass.FindPlan(Vtpass.DataPlans(intent.network.value), intent.dataSize.value) else None;
      var proceeds := && plan.Some? && user.Some?
                      && Ledger.GetWalletBalance(db.wallets, user.value.id, Ok(env, Store.ReadBalance)).Balance?
                      && Ledger.GetWalletBalance(db.wallets, user.value.id, Ok(env, Store.ReadBalance)).balance
                           >= plan.value.amount;
      && o.db == db && o.calls == []
      && (!proceeds ==> o.states == states)
      && (proceeds ==> o.states == states[tg := ConfirmPurchase(
            Purchase(user.value.id, Data, plan.value.amount, intent.network.value,
                     if TextGiven(intent.phoneNumber) then intent.phoneNumber.value else user.value.phoneNumber,
                     intent.dataSize))])
  {
  }

  /** When no plan's name contains the size, the reply lists the network's
      plans and no step is set. */
  lemma UnknownSizeListsPlans(states: States, db: Tables, tg: TelegramId, intent: ResolvedIntent, env: Env)
    requires TextGiven(intent.network) && TextGiven(intent.dataSize)
    requires Vtpass.FindPlan(Vtpass.DataPlans(intent.network.value), intent.dataSize.value).None?
    ensures HandleDataPurchase(states, db, tg, intent, env)
      == Quiet(states, db, PlanNotFound(intent.network.value, Vtpass.DataPlans(intent.network.value)))
  {
  }

  // ---------------------------------------------------------------------
  // Confirmation and the purchase
  // ---------------------------------------------------------------------

  /** Only `yes`, in any letter case, goes ahead; anything else cancels. In
      both cases the confirmation step is gone afterwards. */
  lemma OnlyYesConfirms(states: States, db: Tables, tg: TelegramId, text: string, p: Purchase, env: Env)
    requires tg in states && states[tg] == ConfirmPurchase(p)
    ensures var o := HandleUserState(states, db, tg, text, states[tg], env);
      && o.states == states - {tg}
      && (Lower(text) == "yes" ==> o == ProcessPurchase(states, db, tg, p, env))
      && (Lower(text) != "yes" ==> o == Quiet(states - {tg}, db, PurchaseCancelled))
  {
  }

  /** A refused debit ends the purchase: no record, no provider call, no
      change to the store. */
  lemma RefusedDebitStops(states: States, db: Tables, tg: TelegramId, p: Purchase, env: Env)
    requires !Debit(db, p, env).0.Updated?
    ensures var o := ProcessPurchase(states, db, tg, p, env);
      o.db == db && o.calls == [] && o.states == states - {tg} && o.reply.DebitRefused?
  {
  }

  /** After a debit the purchase writes one record at most: when its insert
      succeeds a row for the purchase is appended, created `pending` and
      settled to `completed` or `failed` by the provider's answer when the
      settling write succeeds. A failed insert means no row and no settling. */
  lemma RecordIsPendingThenSettled(states: States, db: Tables, tg: TelegramId, p: Purchase, env: Env)
    requires forall k | 0 <= k < |db.transactions| :: db.transactions[k].id == k
    requires Debit(db, p, env).0.Updated?
    ensures var o := ProcessPurchase(states, db, tg, p, env);
      var success := ProviderResult(p, env).success;
      && (!Ok(env, Store.InsertRecord) ==> o.db.transactions == db.transactions)
      && (Ok(env, Store.InsertRecord) ==>
            && |o.db.transactions| == |db.transactions| + 1
            && o.db.transactions[..|db.transactions|] == db.transactions
            && o.db.transactions[|db.transactions|] == TxRow(|db.transactions|, p.userId, p.kind, p.amount,
                 Some(p.network), Some(p.phoneNumber),
                 if !Ok(env, Store.SettleRecord) then Pending else if success then Completed else Failed,
                 None, KindName(p.kind) + " purchase - " + p.network))
  {
    if Ok(env, Store.InsertRecord) {
      var (record, txs1) := TxTable.CreateTransaction(db.transactions, p.userId, PendingRecord(p), true);
      var status := if ProviderResult(p, env).success then Completed else Failed;
      var txs2 := TxTable.UpdateTransactionStatus(txs1, record.row.id, status, Ok(env, Store.SettleRecord)).1;
      TxTable.UpdateChangesOnlyStatus(txs1, record.row.id, status, Ok(env, Store.SettleRecord));
      assert txs2[..|db.transactions|] == db.transactions by {
        forall k | 0 <= k < |db.transactions| ensures txs2[k] == db.transactions[k] {
          assert txs1[k] == db.transactions[k] && txs1[k].id == k != record.row.id;
        }
      }
    }
  }

  /** The compensation law: when the provider fails after a successful
      debit and both round trips of the refund succeed, the wallets are
      exactly as before the purchase. */
  lemma FailedPurchaseRestoresBalance(states: States, db: Tables, tg: TelegramId, p: Purchase, env: Env)
    requires Debit(db, p, env).0.Updated?
    requires !ProviderResult(p, env).success
    requires Ok(env, Store.RefundRead) && Ok(env, Store.RefundWrite)
    ensures ProcessPurchase(states, db, tg, p, env).db.wallets == db.wallets
  {
    Ledger.DeductThenAddRestores(db.wallets, p.userId, p.amount, Ok(env, Store.DebitRead), Ok(env, Store.DebitWrite), true, true);
  }

  /** After a successful debit the buyer's wallet ends either where it
      started (the provider failed and the refund went through) or lower by
      the amount; every other wallet is untouched. */
  lemma PurchaseBalanceOutcomes(states: States, db: Tables, tg: TelegramId, p: Purchase, env: Env)
    requires Debit(db, p, env).0.Updated?
    ensures var after := ProcessPurchase(states, db, tg, p, env).db.wallets;
      && p.userId in db.wallets
      && (after == db.wallets || after == db.wallets[p.userId := db.wallets[p.userId] - p.amount])
      && (ProviderResult(p, env).success ==> after == db.wallets[p.userId := db.wallets[p.userId] - p.amount])
      && (ProviderResult(p, env).success ==>
            ProcessPurchase(states, db, tg, p, env).reply.newBalance == db.wallets[p.userId] - p.amount)
  {
    Ledger.DeductThenAddRestores(db.wallets, p.userId, p.amount, Ok(env, Store.DebitRead), Ok(env, Store.DebitWrite),
                                 Ok(env, Store.RefundRead), Ok(env, Store.RefundWrite));
  }

  /** The refund's own outcome is never looked at: whether its read or write
      fails changes neither the reply, nor the provider calls, nor the dialog
      states, nor the transaction table. */
  lemma RefundOutcomeIsIgnored(states: States, db: Tables, tg: TelegramId, p: Purchase, env: Env, failing: set<Store.StoreCall>)
    requires failing - {Store.RefundRead, Store.RefundWrite} == env.failing - {Store.RefundRead, Store.RefundWrite}
    ensures ProcessPurchase(states, db, tg, p, env).reply == ProcessPurchase(states, db, tg, p, env.(failing := failing)).reply
    ensures ProcessPurchase(states, db, tg, p, env).calls == ProcessPurchase(states, db, tg, p, env.(failing := failing)).calls
    ensures ProcessPurchase(states, db, tg, p, env).states == ProcessPurchase(states, db, tg, p, env.(failing := failing)).states
    ensures ProcessPurchase(states, db, tg, p, env).db.transactions
            == ProcessPurchase(states, db, tg, p, env.(failing := failing)).db.transactions
  {
    var env2 := env.(failing := failing);
    PurchaseShape(states, db, tg, p, env);
    PurchaseShape(states, db, tg, p, env2);
    SameOutsideRefund(env, failing, Store.DebitRead);
    SameOutsideRefund(env, failing, Store.DebitWrite);
    SameOutsideRefund(env, failing, Store.InsertRecord);
    SameOutsideRefund(env, failing, Store.SettleRecord);
    assert Debit(db, p, env) == Debit(db, p, env2);
    assert ProviderResult(p, env) == ProviderResult(p, env2);
    assert ProviderCalls(p, env) == ProviderCalls(p, env2);
  }

  /** The purchase's outcome apart from the wallets, written in terms of its
      steps. */
  lemma PurchaseShape(states: States, db: Tables, tg: TelegramId, p: Purchase, env: Env)
    ensures var o := ProcessPurchase(states, db, tg, p, env);
      var debit := Debit(db, p, env).0;
      var (record, txs1) := TxTable.CreateTransaction(db.transactions, p.userId, PendingRecord(p), Ok(env, Store.InsertRecord));
      var result := ProviderResult(p, env);
      && o.states == states - {tg}
      && o.reply == (if !debit.Updated? then DebitRefused(debit == Ledger.InsufficientBalance)
                     else if result.success then PurchaseSucceeded(result.message, result.reference, debit.newBalance)
                     else PurchaseFailedRefunded(result.message))
      && o.calls == (if debit.Updated? then ProviderCalls(p, env) else [])
      && o.db.transactions == (if !debit.Updated? then db.transactions
                               else if record.Created? then
                                 TxTable.UpdateTransactionStatus(txs1, record.row.id, if result.success then Completed else Failed,
                                                                 Ok(env, Store.SettleRecord)).1
                               else txs1)
  {
  }

  lemma SameOutsideRefund(env: Env, failing: set<Store.StoreCall>, c: Store.StoreCall)
    requires failing - {Store.RefundRead, Store.RefundWrite} == env.failing - {Store.RefundRead, Store.RefundWrite}
    requires c != Store.RefundRead && c != Store.RefundWrite
    ensures Ok(env, c) == Ok(env.(failing := failing), c)
  {
    assert c in env.failing <==> c in env.failing - {Store.RefundRead, Store.RefundWrite};
    assert c in failing <==> c in failing - {Store.RefundRead, Store.RefundWrite};
  }

  /** In demo mode no provider is called; otherwise exactly one request is
      posted, a data request carrying the variation code of the size. */
  lemma ProviderCalledOnce(states: States, db: Tables, tg: TelegramId, p: Purchase, env: Env)
    requires Debit(db, p, env).0.Updated?
    ensures var calls := ProcessPurchase(states, db, tg, p, env).calls;
      && (env.demo ==> calls == [])
      && (!env.demo ==> |calls| == 1 && calls[0].ProviderCall?)
      && (!env.demo && p.kind == Data ==>
            calls[0].request.variationCode == Vtpass.DataVariationCode(p.network, p.dataSize.GetOr("")))
  {
  }

  // ---------------------------------------------------------------------
  // Funding
  // ---------------------------------------------------------------------

  /** In the amount step, an unreadable amount or one below 100 re-prompts and
      keeps the step; 100 or more goes to the payment link. */
  lemma FundAmountMinimum(states: States, db: Tables, tg: TelegramId, text: string, env: Env)
    requires tg in states && states[tg] == FundAmount
    ensures var o := HandleUserState(states, db, tg, text, FundAmount, env);
      && (env.parseFloat(text).None? || env.parseFloat(text).value < 100.0 ==> o == Quiet(states, db, InvalidFundAmount))
      && (env.parseFloat(text).Some? && env.parseFloat(text).value >= 100.0 ==>
            o == GeneratePaymentLink(states, db, tg, env.parseFloat(text).value, env))
  {
  }

  /** A funding intent that carries an amount goes straight to the payment
      link with that amount, with no minimum: any non-zero amount, 1 or -5
      included. */
  lemma FundIntentHasNoMinimum(states: States, db: Tables, tg: TelegramId, intent: ResolvedIntent, env: Env)
    requires intent.intent == WalletFund && AmountGiven(intent.amount)
    requires FindUser(db, tg, env).Some?
    ensures var o := HandleIntent(states, db, tg, intent, env);
      var user := FindUser(db, tg, env).value;
      o.calls == [PaymentLinkCall(user.email, intent.amount.value, FundReference(tg, env.now), user.id, tg)]
      && tg !in o.states
  {
  }

  /** A funding intent without an amount asks for one. */
  lemma FundIntentWithoutAmountAsks(states: States, db: Tables, tg: TelegramId, intent: ResolvedIntent, env: Env)
    requires intent.intent == WalletFund && !AmountGiven(intent.amount)
    ensures HandleIntent(states, db, tg, intent, env) == Quiet(states[tg := FundAmount], db, AskFundAmount)
  {
  }

  /** Issuing a payment link clears the sender's step whatever the provider
      answers, and names the reference `FUND_<telegram id>_<now>`. */
  lemma PaymentLinkClearsStep(states: States, db: Tables, tg: TelegramId, amount: real, env: Env)
    requires FindUser(db, tg, env).Some?
    ensures var o := GeneratePaymentLink(states, db, tg, amount, env);
      && o.states == states - {tg} && o.db == db
      && |o.calls| == 1 && o.calls[0].reference == FundReference(tg, env.now)
      && (o.reply.PaymentLinkReady? <==> env.link.LinkIssued?)
  {
  }

  /** In digits followed by `_`, the first `_` is right after the digits. */
  lemma SeparatorAfterDigits(x: string, y: string)
    requires AllDigits(x)
    ensures (x + "_" + y)[|x|] == '_'
    ensures forall k | 0 <= k < |x| :: (x + "_" + y)[k] != '_'
  {
    forall k | 0 <= k < |x| ensures (x + "_" + y)[k] != '_' {
      assert (x + "_" + y)[k] == x[k];
    }
  }

  lemma SplitAtSeparator(x: string, y: string, x2: string, y2: string)
    requires AllDigits(x) && AllDigits(x2)
    requires x + "_" + y == x2 + "_" + y2
    ensures x == x2 && y == y2
  {
    var s := x + "_" + y;
    SeparatorAfterDigits(x, y);
    SeparatorAfterDigits(x2, y2);
    assert |x| == |x2|;
    assert x == s[..|x|] && x2 == s[..|x2|];
    assert y == s[|x| + 1..] && y2 == s[|x2| + 1..];
  }

  /** Distinct senders, or distinct instants, get distinct funding
      references. */
  lemma FundReferenceInjective(a: TelegramId, n: nat, b: TelegramId, m: nat)
    requires FundReference(a, n) == FundReference(b, m)
    ensures a == b && n == m
  {
    var r1 := FundReference(a, n);
    var r2 := FundReference(b, m);
    assert r1[5..] == NatToString(a) + "_" + NatToString(n);
    assert r2[5..] == NatToString(b) + "_" + NatToString(m);
    SplitAtSeparator(NatToString(a), NatToString(n), NatToString(b), NatToString(m));
    NatToStringInjective(a, b);
    NatToStringInjective(n, m);
  }

  /** The monthly report always ends in the catch-all apology and changes
      nothing: the store query it calls does not exist. */
  lemma MonthlyReportAlwaysFails(states: States, db: Tables, tg: TelegramId, intent: ResolvedIntent, env: Env)
    requires intent.intent == MonthlyReport
    ensures HandleIntent(states, db, tg, intent, env) == Quiet(states, db, SomethingWentWrong)
  {
  }

  /** "reset pin" text from an account holder, through the pattern parser,
      opens the set-PIN step. */
  lemma ResetPinOpensSetPin(states: States, db: Tables, tg: TelegramId, text: string, env: Env)
    requires env.llm.None? && FindUser(db, tg, env).Some? && tg !in states && !StartsWith(text, "/")
    requires Contains(Lower(text), "reset pin")
    requires forall j | 0 <= j < 4 :: !Nlp.MentionsAny(Lower(text), Nlp.Rules[j].1)
    ensures HandleMessage(states, db, tg, text, env).states == states[tg := SetPIN(FindUser(db, tg, env).value.id)]
  {
    Nlp.ResetPinIsSetPin(text);
  }
}
