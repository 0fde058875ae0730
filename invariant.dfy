/** An invariant of the message handler: the store stays well formed, no
    wallet goes negative, nobody is ever waiting in the PIN-entry step, and a
    sender without an account is never past the e-mail step. Every message
    keeps it, so it holds after any sequence of messages from the empty
    start. */
module DialogInvariant {
  import opened Wrappers
  import opened Strings
  import opened Records
  import opened Intents
  import Store
  import opened Validation
  import opened Dialog
  import Ledger
  import TxTable
  import UserTable
  import DialogLaws

  ghost predicate Registered(db: Tables, t: TelegramId) {
    UserTable.FindByTelegramId(db, t).Some?
  }

  /** The steps a sender can be in before an account exists. */
  predicate BeforeAccount(s: State) {
    s.FirstName? || s.LastName? || s.Email?
  }

  ghost predicate StepAllowed(db: Tables, t: TelegramId, s: State) {
    !s.EnterPIN? && (Registered(db, t) || BeforeAccount(s))
  }

  ghost predicate StoreInv(db: Tables) {
    WellFormed(db) && forall u | u in db.wallets :: db.wallets[u] >= 0.0
  }

  ghost predicate Inv(states: States, db: Tables) {
    StoreInv(db) && forall t | t in states :: StepAllowed(db, t, states[t])
  }

  /** What one message does to the invariant's parts: the store invariant
      holds afterwards, no account disappears, only the sender's step
      changes, and the sender's step is either left as it was or is an
      allowed one. */
  ghost predicate Keeps(states: States, db: Tables, tg: TelegramId, o: Outcome) {
    && StoreInv(o.db)
    && (forall t :: Registered(db, t) ==> Registered(o.db, t))
    && (forall t | t != tg :: (t in o.states <==> t in states) && (t in states ==> o.states[t] == states[t]))
    && (tg in o.states ==> (tg in states && o.states[tg] == states[tg]) || StepAllowed(o.db, tg, o.states[tg]))
  }

  lemma KeepsGivesInv(states: States, db: Tables, tg: TelegramId, o: Outcome)
    requires Inv(states, db) && Keeps(states, db, tg, o)
    ensures Inv(o.states, o.db)
  {
    forall t | t in o.states ensures StepAllowed(o.db, t, o.states[t]) {
      if t != tg || (tg in states && o.states[tg] == states[tg]) {
        assert StepAllowed(db, t, states[t]);
      }
    }
  }

  // ---------------------------------------------------------------------
  // The three things a handler does to the sender's step
  // ---------------------------------------------------------------------

  lemma LeaveKeeps(states: States, db: Tables, tg: TelegramId, reply: Reply, calls: seq<Call>)
    requires StoreInv(db)
    ensures Keeps(states, db, tg, Outcome(states, db, reply, calls))
  {
  }

  lemma SetKeeps(states: States, db: Tables, tg: TelegramId, s: State, reply: Reply)
    requires StoreInv(db) && StepAllowed(db, tg, s)
    ensures Keeps(states, db, tg, Quiet(states[tg := s], db, reply))
  {
  }

  lemma ClearKeeps(states: States, db: Tables, tg: TelegramId, db1: Tables, reply: Reply, calls: seq<Call>)
    requires StoreInv(db1)
    requires forall t :: Registered(db, t) ==> Registered(db1, t)
    ensures Keeps(states, db, tg, Outcome(states - {tg}, db1, reply, calls))
  {
  }

  // ---------------------------------------------------------------------
  // One lemma per handler
  // ---------------------------------------------------------------------

  lemma StartKeeps(states: States, db: Tables, tg: TelegramId, env: Env)
    requires StoreInv(db)
    ensures Keeps(states, db, tg, HandleStart(states, db, tg, env))
  {
    if FindUser(db, tg, env).None? {
      SetKeeps(states, db, tg, FirstName, AskFirstName);
    } else {
      LeaveKeeps(states, db, tg, HandleStart(states, db, tg, env).reply, []);
    }
  }

  lemma CommandKeeps(states: States, db: Tables, tg: TelegramId, command: string, env: Env)
    requires StoreInv(db)
    ensures Keeps(states, db, tg, HandleCommand(states, db, tg, command, env))
  {
    var o := HandleCommand(states, db, tg, command, env);
    if command == "/start" {
      StartKeeps(states, db, tg, env);
    } else {
      LeaveKeeps(states, db, tg, o.reply, []);
    }
  }

  lemma PaymentLinkKeeps(states: States, db: Tables, tg: TelegramId, amount: real, env: Env)
    requires StoreInv(db)
    ensures Keeps(states, db, tg, GeneratePaymentLink(states, db, tg, amount, env))
  {
    var o := GeneratePaymentLink(states, db, tg, amount, env);
    if FindUser(db, tg, env).None? {
      LeaveKeeps(states, db, tg, o.reply, o.calls);
    } else {
      ClearKeeps(states, db, tg, db, o.reply, o.calls);
    }
  }

  /** The purchase keeps every wallet non-negative: the debit only goes
      through when it leaves the balance non-negative, and the refund only
      ever undoes that debit. */
  lemma PurchaseKeeps(states: States, db: Tables, tg: TelegramId, p: Purchase, env: Env)
    requires StoreInv(db)
    ensures Keeps(states, db, tg, ProcessPurchase(states, db, tg, p, env))
  {
    var o := ProcessPurchase(states, db, tg, p, env);
    PurchaseStoreKeeps(states, db, tg, p, env);
    ClearKeeps(states, db, tg, o.db, o.reply, o.calls);
  }

  lemma PurchaseStoreKeeps(states: States, db: Tables, tg: TelegramId, p: Purchase, env: Env)
    requires StoreInv(db)
    ensures var o := ProcessPurchase(states, db, tg, p, env);
      && StoreInv(o.db) && o.db.users == db.users && o.db.telegramIndex == db.telegramIndex
      && o.states == states - {tg}
  {
    var o := ProcessPurchase(states, db, tg, p, env);
    var (debit, wallets1) := Debit(db, p, env);
    if debit.Updated? {
      Ledger.UpdateKeepsNonNegative(db.wallets, p.userId, p.amount, Ok(env, Store.DebitRead), Ok(env, Store.DebitWrite), "subtract");
      Ledger.UpdateTouchesOnlyItsWallet(db.wallets, p.userId, p.amount, Ok(env, Store.DebitRead), Ok(env, Store.DebitWrite), "subtract");
      Ledger.DeductThenAddRestores(db.wallets, p.userId, p.amount, Ok(env, Store.DebitRead), Ok(env, Store.DebitWrite),
                                   Ok(env, Store.RefundRead), Ok(env, Store.RefundWrite));
      var (record, txs1) := TxTable.CreateTransaction(db.transactions, p.userId, PendingRecord(p), Ok(env, Store.InsertRecord));
      TxTable.WritesKeepIdsPositional(db.transactions, p.userId, PendingRecord(p), Ok(env, Store.InsertRecord),
                                      0, Pending, true);
      if record.Created? {
        var status := if ProviderResult(p, env).success then Completed else Failed;
        TxTable.WritesKeepIdsPositional(txs1, p.userId, PendingRecord(p), false,
                                        record.row.id, status, Ok(env, Store.SettleRecord));
      }
      assert o.db.users == db.users && o.db.telegramIndex == db.telegramIndex && o.db.nextUserId == db.nextUserId;
      assert o.db.wallets.Keys == db.wallets.Keys;
      assert forall k | 0 <= k < |o.db.transactions| :: o.db.transactions[k].id == k;
      assert forall u | u in o.db.wallets :: u in db.users;
    }
  }

  lemma AirtimeKeeps(states: States, db: Tables, tg: TelegramId, intent: ResolvedIntent, env: Env)
    requires StoreInv(db) && Registered(db, tg)
    ensures Keeps(states, db, tg, HandleAirtimePurchase(states, db, tg, intent, env))
  {
    var o := HandleAirtimePurchase(states, db, tg, intent, env);
    if o.states == states {
      LeaveKeeps(states, db, tg, o.reply, o.calls);
    } else {
      DialogLaws.AirtimeRequestOutcome(states, db, tg, intent, env);
      SetKeeps(states, db, tg, o.states[tg], o.reply);
    }
  }

  lemma DataKeeps(states: States, db: Tables, tg: TelegramId, intent: ResolvedIntent, env: Env)
    requires StoreInv(db) && Registered(db, tg)
    ensures Keeps(states, db, tg, HandleDataPurchase(states, db, tg, intent, env))
  {
    var o := HandleDataPurchase(states, db, tg, intent, env);
    DialogLaws.DataRequestOutcome(states, db, tg, intent, env);
    if o.states == states {
      LeaveKeeps(states, db, tg, o.reply, o.calls);
    } else {
      SetKeeps(states, db, tg, o.states[tg], o.reply);
    }
  }

  lemma IntentKeeps(states: States, db: Tables, tg: TelegramId, intent: ResolvedIntent, env: Env)
    requires StoreInv(db)
    requires Registered(db, tg)
    ensures Keeps(states, db, tg, HandleIntent(states, db, tg, intent, env))
  {
    var o := HandleIntent(states, db, tg, intent, env);
    var user := FindUser(db, tg, env);
    match intent.intent
    case WalletFund =>
      if AmountGiven(intent.amount) {
        PaymentLinkKeeps(states, db, tg, intent.amount.value, env);
      } else {
        SetKeeps(states, db, tg, FundAmount, AskFundAmount);
      }
    case AirtimePurchase =>
      AirtimeKeeps(states, db, tg, intent, env);
    case DataPurchase =>
      DataKeeps(states, db, tg, intent, env);
    case SetPin =>
      if user.Some? {
        SetKeeps(states, db, tg, SetPIN(user.value.id), AskNewPIN);
      } else {
        LeaveKeeps(states, db, tg, o.reply, o.calls);
      }
    case ChangePin =>
      if user.Some? {
        SetKeeps(states, db, tg, SetPIN(user.value.id), AskNewPIN);
      } else {
        LeaveKeeps(states, db, tg, o.reply, o.calls);
      }
    case _ =>
      LeaveKeeps(states, db, tg, o.reply, o.calls);
  }

  /** An account-creation answer from a sender who already has an account
      ends the step without writing. */
  lemma PhoneNumberKeeps(states: States, db: Tables, tg: TelegramId, text: string, env: Env)
    requires StoreInv(db) && Registered(db, tg)
    requires tg in states && states[tg].PhoneNumber?
    ensures Keeps(states, db, tg, HandleUserState(states, db, tg, text, states[tg], env))
  {
    var o := HandleUserState(states, db, tg, text, states[tg], env);
    if IsValidPhoneNumber(text) {
      var s := states[tg];
      var reg := UserTable.Registration(s.firstName, s.lastName, s.email, Trim(text));
      UserTable.CreateForExistingUser(db, tg, reg, Ok(env, Store.InsertUser), Ok(env, Store.InsertWallet));
      ClearKeeps(states, db, tg, db, o.reply, o.calls);
    } else {
      LeaveKeeps(states, db, tg, o.reply, o.calls);
    }
  }

  lemma SetPinKeeps(states: States, db: Tables, tg: TelegramId, text: string, env: Env)
    requires StoreInv(db)
    requires tg in states && states[tg].SetPIN?
    ensures Keeps(states, db, tg, HandleUserState(states, db, tg, text, states[tg], env))
  {
    var o := HandleUserState(states, db, tg, text, states[tg], env);
    if IsValidPIN(text) {
      var userId := states[tg].userId;
      var (ok, db1) := UserTable.SetPIN(db, userId, Trim(text), env.hash, Ok(env, Store.WritePin));
      assert o == Quiet(states - {tg}, db1, if ok then SetupComplete else PINNotSaved);
      SetPinStoreKeeps(db, userId, Trim(text), env.hash, Ok(env, Store.WritePin));
      ClearKeeps(states, db, tg, db1, o.reply, o.calls);
    } else {
      LeaveKeeps(states, db, tg, o.reply, o.calls);
    }
  }

  /** Writing a PIN hash keeps the store invariant and every account. */
  lemma SetPinStoreKeeps(db: Tables, userId: UserId, pin: string, hash: string -> Digest, writeOk: bool)
    requires StoreInv(db)
    ensures var db1 := UserTable.SetPIN(db, userId, pin, hash, writeOk).1;
      StoreInv(db1) && forall t :: Registered(db, t) ==> Registered(db1, t)
  {
    var db1 := UserTable.SetPIN(db, userId, pin, hash, writeOk).1;
    UserTable.SetPINKeepsWellFormed(db, userId, pin, hash, writeOk);
    UserTable.SetPINChangesOnlyTheHash(db, userId, pin, hash, writeOk);
    forall t | Registered(db, t) ensures Registered(db1, t) {
      assert db.telegramIndex[t] in db1.users;
    }
  }

  /** The sender's pending step. The PIN-entry step is one the invariant
      rules out, so it is not among the cases. */
  lemma UserStateKeeps(states: States, db: Tables, tg: TelegramId, text: string, env: Env)
    requires StoreInv(db)
    requires tg in states && StepAllowed(db, tg, states[tg])
    requires Registered(db, tg) || text == "/start"
    ensures Keeps(states, db, tg, HandleUserState(states, db, tg, text, states[tg], env))
  {
    var o := HandleUserState(states, db, tg, text, states[tg], env);
    match states[tg]
    case FirstName =>
      SetKeeps(states, db, tg, LastName(Trim(text)), o.reply);
    case LastName(first) =>
      SetKeeps(states, db, tg, Email(first, Trim(text)), o.reply);
    case Email(first, last) =>
      if IsValidEmail(text) {
        StartIsNotAnEmail();
        SetKeeps(states, db, tg, PhoneNumber(first, last, Trim(text)), o.reply);
      } else {
        LeaveKeeps(states, db, tg, o.reply, o.calls);
      }
    case PhoneNumber(_, _, _) =>
      PhoneNumberKeeps(states, db, tg, text, env);
    case SetPIN(_) =>
      SetPinKeeps(states, db, tg, text, env);
    case ConfirmPurchase(p) =>
      if Lower(text) == "yes" {
        PurchaseKeeps(states, db, tg, p, env);
      } else {
        ClearKeeps(states, db, tg, db, o.reply, o.calls);
      }
    case FundAmount =>
      if env.parseFloat(text).Some? && env.parseFloat(text).value >= 100.0 {
        PaymentLinkKeeps(states, db, tg, env.parseFloat(text).value, env);
      } else {
        LeaveKeeps(states, db, tg, o.reply, o.calls);
      }
  }

  lemma MessageKeeps(states: States, db: Tables, tg: TelegramId, text: string, env: Env)
    requires Inv(states, db)
    ensures Keeps(states, db, tg, HandleMessage(states, db, tg, text, env))
  {
    var user := FindUser(db, tg, env);
    if user.None? && text != "/start" {
    } else if tg in states {
      UserStateKeeps(states, db, tg, text, env);
    } else if StartsWith(text, "/") {
      CommandKeeps(states, db, tg, text, env);
    } else {
      IntentKeeps(states, db, tg, ParseIntent(text, env), env);
    }
  }

  // ---------------------------------------------------------------------
  // The invariant over any run
  // ---------------------------------------------------------------------

  /** Every message keeps the invariant. */
  lemma InvPreserved(states: States, db: Tables, tg: TelegramId, text: string, env: Env)
    requires Inv(states, db)
    ensures Inv(HandleMessage(states, db, tg, text, env).states, HandleMessage(states, db, tg, text, env).db)
  {
    MessageKeeps(states, db, tg, text, env);
    KeepsGivesInv(states, db, tg, HandleMessage(states, db, tg, text, env));
  }

  /** One incoming message: who sent it, its text, and what its
      collaborators answer while it is handled. */
  datatype Message = Message(sender: TelegramId, text: string, env: Env)

  /** The dialog states and the store after handling the messages in order. */
  function Run(states: States, db: Tables, msgs: seq<Message>): (States, Tables)
    decreases |msgs|
  {
    if msgs == [] then (states, db)
    else
      var o := HandleMessage(states, db, msgs[0].sender, msgs[0].text, msgs[0].env);
      Run(o.states, o.db, msgs[1..])
  }

  /** The tables a fresh store starts with. */
  function EmptyTables(): Tables {
    Tables(map[], map[], 0, map[], [])
  }

  lemma {:induction false} RunKeepsInv(states: States, db: Tables, msgs: seq<Message>)
    requires Inv(states, db)
    ensures Inv(Run(states, db, msgs).0, Run(states, db, msgs).1)
    decreases |msgs|
  {
    if msgs != [] {
      var o := HandleMessage(states, db, msgs[0].sender, msgs[0].text, msgs[0].env);
      InvPreserved(states, db, msgs[0].sender, msgs[0].text, msgs[0].env);
      RunKeepsInv(o.states, o.db, msgs[1..]);
    }
  }

  /** From a fresh store and no pending steps, after any messages at all,
      nobody waits in the PIN-entry step (the step the PIN-checked purchase
      would need), no wallet is negative, and a sender without an account is
      at most at the e-mail step, so registration through the message
      handler never completes. */
  lemma EnterPinUnreachable(msgs: seq<Message>)
    ensures var (states, db) := Run(map[], EmptyTables(), msgs);
      && WellFormed(db)
      && (forall t | t in states :: !states[t].EnterPIN?)
      && (forall u | u in db.wallets :: db.wallets[u] >= 0.0)
      && (forall t | t in states && UserTable.FindByTelegramId(db, t).None? :: BeforeAccount(states[t]))
  {
    RunKeepsInv(map[], EmptyTables(), msgs);
  }

  /** Without an account to begin with, no run of messages creates one. */
  lemma {:induction false} NoAccountIsEverCreated(states: States, db: Tables, msgs: seq<Message>)
    requires Inv(states, db)
    requires forall t | t in states :: BeforeAccount(states[t])
    requires db.users == map[]
    ensures Run(states, db, msgs).1.users == map[]
    decreases |msgs|
  {
    if msgs != [] {
      var m := msgs[0];
      var o := HandleMessage(states, db, m.sender, m.text, m.env);
      InvPreserved(states, db, m.sender, m.text, m.env);
      NoAccountStep(states, db, m.sender, m.text, m.env);
      NoAccountIsEverCreated(o.states, o.db, msgs[1..]);
    }
  }

  /** With no accounts, one message keeps every step before the account and
      creates no account. */
  lemma NoAccountStep(states: States, db: Tables, tg: TelegramId, text: string, env: Env)
    requires Inv(states, db)
    requires forall t | t in states :: BeforeAccount(states[t])
    requires db.users == map[]
    ensures var o := HandleMessage(states, db, tg, text, env);
      o.db.users == map[] && forall t | t in o.states :: BeforeAccount(o.states[t])
  {
    assert FindUser(db, tg, env).None?;
    if text == "/start" && tg in states {
      StartBeforeAccount(states, db, tg, env);
    }
  }

  /** "/start" typed during registration is taken as the answer to the
      pending question, and the step stays before the account. */
  lemma StartBeforeAccount(states: States, db: Tables, tg: TelegramId, env: Env)
    requires tg in states && forall t | t in states :: BeforeAccount(states[t])
    ensures var o := HandleUserState(states, db, tg, "/start", states[tg], env);
      o.db == db && forall t | t in o.states :: BeforeAccount(o.states[t])
  {
    StartIsNotAnEmail();
  }
}
