/** The `users` table and its account operations (userService.js): lookup by
    telegram id, registration that writes a user row and then a zero-balance
    wallet, the uniqueness probes for e-mail and phone, and the PIN hash. The
    one-way hash and its comparison are parameters with a stated contract. */
module UserTable {
  import opened Wrappers
  import opened Strings
  import opened Records

  /** The `userData` the dialog collects. */
  datatype Registration = Registration(firstName: string, lastName: string, email: string, phoneNumber: string)

  datatype CreateUserResult = UserCreated(user: UserRow) | UserExists(user: UserRow) | CreateUserError

  datatype PinResult = PinMatches | PinMismatch | PinNotSet | PinError

  /** The row filed under a telegram id, if any. */
  function FindByTelegramId(t: Tables, tg: TelegramId): Option<UserRow> {
    if tg in t.telegramIndex && t.telegramIndex[tg] in t.users then Some(t.users[t.telegramIndex[tg]]) else None
  }

  /** `getUserByTelegramId`: no row and a failed read both give null. */
  function GetUserByTelegramId(t: Tables, tg: TelegramId, readOk: bool): (r: Option<UserRow>)
    ensures r.Some? ==> readOk && r == FindByTelegramId(t, tg)
    ensures r.None? <==> !readOk || FindByTelegramId(t, tg).None?
  {
    if readOk then FindByTelegramId(t, tg) else None
  }

  /** `createUser`: an existing account is returned as a failure; otherwise
      the users insert, then the wallets insert, each of which may fail. The
      wallet insert failing leaves the new user row in place. */
  function CreateUser(t: Tables, tg: TelegramId, reg: Registration, userInsertOk: bool, walletInsertOk: bool)
    : (CreateUserResult, Tables)
  {
    match FindByTelegramId(t, tg)
    case Some(existing) => (UserExists(existing), t)
    case None =>
      if !userInsertOk then (CreateUserError, t)
      else
        var user := UserRow(t.nextUserId, tg, reg.firstName, reg.lastName, reg.email, reg.phoneNumber, None);
        var t1 := t.(users := t.users[user.id := user], telegramIndex := t.telegramIndex[tg := user.id],
                     nextUserId := t.nextUserId + 1);
        if !walletInsertOk then (CreateUserError, t1)
        else (UserCreated(user), t1.(wallets := t1.wallets[user.id := 0.0]))
  }

  /** The ids of the rows whose e-mail equals `email` exactly. */
  function UsersWithEmail(t: Tables, email: string): set<UserId> {
    set id | id in t.users && t.users[id].email == email
  }

  function UsersWithPhone(t: Tables, phone: string): set<UserId> {
    set id | id in t.users && t.users[id].phoneNumber == phone
  }

  /** `checkEmailExists`: the lower-cased, trimmed address is looked up with
      `single()`, which succeeds only on exactly one row; no row, several rows
      and a failed read all give false. */
  function CheckEmailExists(t: Tables, email: string, readOk: bool): bool {
    readOk && |UsersWithEmail(t, Trim(Lower(email)))| == 1
  }

  /** `checkPhoneExists`: the same probe on the trimmed phone number. */
  function CheckPhoneExists(t: Tables, phone: string, readOk: bool): bool {
    readOk && |UsersWithPhone(t, Trim(phone))| == 1
  }

  /** `setPIN`: the hash of the PIN goes into the row with the given id. An id
      no row carries matches nothing, which the store reports as success. */
  function SetPIN(t: Tables, userId: UserId, pin: string, hash: string -> Digest, writeOk: bool): (bool, Tables) {
    if !writeOk then (false, t)
    else if userId !in t.users then (true, t)
    else (true, t.(users := t.users[userId := t.users[userId].(pinHash := Some(hash(pin)))]))
  }

  /** `verifyPIN`: a missing row is a read error; an absent or empty hash is
      "PIN not set"; otherwise the comparison decides. */
  function VerifyPIN(t: Tables, userId: UserId, pin: string, compare: (string, Digest) -> bool, readOk: bool)
    : PinResult
  {
    if !readOk || userId !in t.users then PinError
    else match t.users[userId].pinHash
      case None => PinNotSet
      case Some(h) => if h == "" then PinNotSet else if compare(pin, h) then PinMatches else PinMismatch
  }

  // ---------------------------------------------------------------------
  // Properties
  // ---------------------------------------------------------------------

  /** Registering a telegram id that already has an account returns that
      account as a failure and writes nothing. */
  lemma CreateForExistingUser(t: Tables, tg: TelegramId, reg: Registration, userInsertOk: bool, walletInsertOk: bool)
    requires FindByTelegramId(t, tg).Some?
    ensures CreateUser(t, tg, reg, userInsertOk, walletInsertOk) == (UserExists(FindByTelegramId(t, tg).value), t)
  {
  }

  /** A successful registration files a fresh user row holding exactly the
      collected fields and no PIN, findable by the telegram id, plus a wallet
      with balance zero; nothing else changes. */
  lemma CreateUserSucceeds(t: Tables, tg: TelegramId, reg: Registration)
    requires WellFormed(t)
    requires FindByTelegramId(t, tg).None?
    ensures var (r, after) := CreateUser(t, tg, reg, true, true);
      && r.UserCreated?
      && r.user.id !in t.users && r.user.id !in t.wallets
      && r.user.telegramId == tg && r.user.pinHash.None?
      && r.user == UserRow(r.user.id, tg, reg.firstName, reg.lastName, reg.email, reg.phoneNumber, None)
      && FindByTelegramId(after, tg) == Some(r.user)
      && after.users == t.users[r.user.id := r.user]
      && after.wallets == t.wallets[r.user.id := 0.0]
      && after.transactions == t.transactions
  {
  }

  /** Registration is not atomic: when the wallet insert fails the call
      reports failure, yet the user row stays and has no wallet. */
  lemma CreateUserNotAtomic(t: Tables, tg: TelegramId, reg: Registration)
    requires WellFormed(t)
    requires FindByTelegramId(t, tg).None?
    ensures var (r, after) := CreateUser(t, tg, reg, true, false);
      && r == CreateUserError
      && FindByTelegramId(after, tg).Some?
      && FindByTelegramId(after, tg).value.id !in after.wallets
  {
  }

  /** A failed users insert writes nothing. */
  lemma CreateUserInsertFailure(t: Tables, tg: TelegramId, reg: Registration, walletInsertOk: bool)
    requires FindByTelegramId(t, tg).None?
    ensures CreateUser(t, tg, reg, false, walletInsertOk) == (CreateUserError, t)
  {
  }

  /** Registration keeps the store's integrity. */
  lemma CreateUserKeepsWellFormed(t: Tables, tg: TelegramId, reg: Registration, userInsertOk: bool, walletInsertOk: bool)
    requires WellFormed(t)
    ensures WellFormed(CreateUser(t, tg, reg, userInsertOk, walletInsertOk).1)
  {
    var after := CreateUser(t, tg, reg, userInsertOk, walletInsertOk).1;
    if FindByTelegramId(t, tg).None? && userInsertOk {
      var id := t.nextUserId;
      assert tg !in t.telegramIndex;
      forall uid | uid in after.users
        ensures after.users[uid].telegramId in after.telegramIndex
        ensures after.telegramIndex[after.users[uid].telegramId] == uid
      {
        if uid != id {
          assert uid in t.users && after.users[uid] == t.users[uid];
          assert t.users[uid].telegramId != tg;
        }
      }
    }
  }

  /** The e-mail probe answers true exactly when the read succeeds and one
      row, and no other, holds the lower-cased, trimmed address; a failed
      read answers false. */
  lemma CheckEmailMeansOneHolder(t: Tables, email: string, readOk: bool)
    ensures CheckEmailExists(t, email, readOk) <==>
      readOk && exists id | id in t.users && t.users[id].email == Trim(Lower(email)) ::
        forall j | j in t.users && t.users[j].email == Trim(Lower(email)) :: j == id
    ensures !readOk ==> !CheckEmailExists(t, email, readOk)
  {
    SoleEmailHolder(t, Trim(Lower(email)));
  }

  lemma SoleEmailHolder(t: Tables, e: string)
    ensures |UsersWithEmail(t, e)| == 1 <==>
      exists id | id in t.users && t.users[id].email == e :: forall j | j in t.users && t.users[j].email == e :: j == id
  {
    if |UsersWithEmail(t, e)| == 1 {
      SoleHolderOf(t, UsersWithEmail(t, e), (r: UserRow) => r.email == e);
    }
    if exists id | id in t.users && t.users[id].email == e :: forall j | j in t.users && t.users[j].email == e :: j == id {
      CountOneOf(t, UsersWithEmail(t, e), (r: UserRow) => r.email == e);
    }
  }

  /** The phone probe answers true exactly when the read succeeds and one
      row, and no other, holds the trimmed number; a failed read answers
      false. */
  lemma CheckPhoneMeansOneHolder(t: Tables, phone: string, readOk: bool)
    ensures CheckPhoneExists(t, phone, readOk) <==>
      readOk && exists id | id in t.users && t.users[id].phoneNumber == Trim(phone) ::
        forall j | j in t.users && t.users[j].phoneNumber == Trim(phone) :: j == id
    ensures !readOk ==> !CheckPhoneExists(t, phone, readOk)
  {
    SolePhoneHolder(t, Trim(phone));
  }

  lemma SolePhoneHolder(t: Tables, p: string)
    ensures |UsersWithPhone(t, p)| == 1 <==>
      exists id | id in t.users && t.users[id].phoneNumber == p :: forall j | j in t.users && t.users[j].phoneNumber == p :: j == id
  {
    if |UsersWithPhone(t, p)| == 1 {
      SoleHolderOf(t, UsersWithPhone(t, p), (r: UserRow) => r.phoneNumber == p);
    }
    if exists id | id in t.users && t.users[id].phoneNumber == p :: forall j | j in t.users && t.users[j].phoneNumber == p :: j == id {
      CountOneOf(t, UsersWithPhone(t, p), (r: UserRow) => r.phoneNumber == p);
    }
  }

  /** The holders of a value, by any row predicate: one holder means a sole
      holder row. */
  lemma SoleHolderOf(t: Tables, s: set<UserId>, holds: UserRow -> bool)
    requires forall id :: id in s <==> id in t.users && holds(t.users[id])
    requires |s| == 1
    ensures exists id | id in t.users && holds(t.users[id]) :: forall j | j in t.users && holds(t.users[j]) :: j == id
  {
    OneHasSole(s);
    var id :| id in s && forall j | j in s :: j == id;
    assert id in t.users && holds(t.users[id]);
  }

  /** A sole holder row means exactly one holder. */
  lemma CountOneOf(t: Tables, s: set<UserId>, holds: UserRow -> bool)
    requires forall id :: id in s <==> id in t.users && holds(t.users[id])
    requires exists id | id in t.users && holds(t.users[id]) :: forall j | j in t.users && holds(t.users[j]) :: j == id
    ensures |s| == 1
  {
    var id :| id in t.users && holds(t.users[id]) && forall j | j in t.users && holds(t.users[j]) :: j == id;
    assert s == {id};
  }

  /** A set of one element has a sole member. */
  lemma OneHasSole<T>(s: set<T>)
    requires |s| == 1
    ensures exists id | id in s :: forall j | j in s :: j == id
  {
    var id :| id in s;
    assert s - {id} == {} by {
      assert |s - {id}| == 0;
    }
    assert forall j | j in s :: j == id;
  }

  /** Two rows holding the same address make the probe answer false. */
  lemma DuplicateEmailIsNotFound(t: Tables, email: string, readOk: bool, a: UserId, b: UserId)
    requires a != b && a in t.users && b in t.users
    requires t.users[a].email == Trim(Lower(email)) && t.users[b].email == Trim(Lower(email))
    ensures !CheckEmailExists(t, email, readOk)
  {
    TwoHolders(UsersWithEmail(t, Trim(Lower(email))), a, b);
  }

  /** Two rows holding the same phone number make the probe answer false. */
  lemma DuplicatePhoneIsNotFound(t: Tables, phone: string, readOk: bool, a: UserId, b: UserId)
    requires a != b && a in t.users && b in t.users
    requires t.users[a].phoneNumber == Trim(phone) && t.users[b].phoneNumber == Trim(phone)
    ensures !CheckPhoneExists(t, phone, readOk)
  {
    TwoHolders(UsersWithPhone(t, Trim(phone)), a, b);
  }

  lemma TwoHolders(s: set<UserId>, a: UserId, b: UserId)
    requires a != b && a in s && b in s
    ensures |s| >= 2
  {
    var rest := s - {a};
    assert b in rest;
    assert s == rest + {a};
    assert |rest| >= 1;
  }

  /** An account with no PIN hash is told "PIN not set", whatever is typed. */
  lemma VerifyWithoutPin(t: Tables, userId: UserId, pin: string, compare: (string, Digest) -> bool)
    requires userId in t.users && t.users[userId].pinHash.None?
    ensures VerifyPIN(t, userId, pin, compare, true) == PinNotSet
  {
  }

  /** With a hash whose comparison accepts every PIN against its own
      non-empty hash, a PIN that was stored verifies. */
  lemma SetThenVerify(t: Tables, userId: UserId, pin: string, hash: string -> Digest,
                      compare: (string, Digest) -> bool)
    requires userId in t.users
    requires hash(pin) != "" && compare(pin, hash(pin))
    ensures var (ok, after) := SetPIN(t, userId, pin, hash, true);
      ok && VerifyPIN(after, userId, pin, compare, true) == PinMatches
  {
  }

  /** Setting a PIN writes only the hash of that one row. */
  lemma SetPINChangesOnlyTheHash(t: Tables, userId: UserId, pin: string, hash: string -> Digest, writeOk: bool)
    ensures var (ok, after) := SetPIN(t, userId, pin, hash, writeOk);
      && ok == writeOk
      && after.users.Keys == t.users.Keys
      && (forall id | id in t.users && id != userId :: after.users[id] == t.users[id])
      && (userId in t.users ==>
            after.users[userId] == if writeOk then t.users[userId].(pinHash := Some(hash(pin))) else t.users[userId])
      && after.telegramIndex == t.telegramIndex && after.nextUserId == t.nextUserId
      && after.wallets == t.wallets && after.transactions == t.transactions
  {
  }

  /** Writing a PIN hash keeps the store's integrity. */
  lemma SetPINKeepsWellFormed(t: Tables, userId: UserId, pin: string, hash: string -> Digest, writeOk: bool)
    requires WellFormed(t)
    ensures WellFormed(SetPIN(t, userId, pin, hash, writeOk).1)
  {
  }
}

/** The user service's calls as actions on the shared store. */
module UserService {
  import opened Wrappers
  import opened Strings
  import opened Records
  import opened Store
  import UserTable

  method GetUserByTelegramId(db: Database, tg: TelegramId, readOk: bool) returns (r: Option<UserRow>)
    ensures r == UserTable.GetUserByTelegramId(db.Contents(), tg, readOk)
  {
    if !readOk || tg !in db.telegramIndex || db.telegramIndex[tg] !in db.users {
      return None;
    }
    return Some(db.users[db.telegramIndex[tg]]);
  }

  /** Check for an existing account, insert the user row, then the wallet. */
  method CreateUser(db: Database, tg: TelegramId, reg: UserTable.Registration, userInsertOk: bool, walletInsertOk: bool)
    returns (r: UserTable.CreateUserResult)
    modifies db`users, db`telegramIndex, db`nextUserId, db`wallets
    ensures (r, db.Contents()) == UserTable.CreateUser(old(db.Contents()), tg, reg, userInsertOk, walletInsertOk)
  {
    var existing := GetUserByTelegramId(db, tg, true);
    if existing.Some? {
      return UserTable.UserExists(existing.value);
    }
    if !userInsertOk {
      return UserTable.CreateUserError;
    }
    var user := UserRow(db.nextUserId, tg, reg.firstName, reg.lastName, reg.email, reg.phoneNumber, None);
    db.users := db.users[user.id := user];
    db.telegramIndex := db.telegramIndex[tg := user.id];
    db.nextUserId := db.nextUserId + 1;
    if !walletInsertOk {
      return UserTable.CreateUserError;
    }
    db.wallets := db.wallets[user.id := 0.0];
    return UserTable.UserCreated(user);
  }

  method CheckEmailExists(db: Database, email: string, readOk: bool) returns (exists_: bool)
    ensures exists_ == UserTable.CheckEmailExists(db.Contents(), email, readOk)
  {
    exists_ := readOk && |UserTable.UsersWithEmail(db.Contents(), Trim(Lower(email)))| == 1;
  }

  method CheckPhoneExists(db: Database, phone: string, readOk: bool) returns (exists_: bool)
    ensures exists_ == UserTable.CheckPhoneExists(db.Contents(), phone, readOk)
  {
    exists_ := readOk && |UserTable.UsersWithPhone(db.Contents(), Trim(phone))| == 1;
  }

  method SetPIN(db: Database, userId: UserId, pin: string, hash: string -> Digest, writeOk: bool) returns (ok: bool)
    modifies db`users
    ensures (ok, db.Contents()) == UserTable.SetPIN(old(db.Contents()), userId, pin, hash, writeOk)
  {
    var pinHash := hash(pin);
    if !writeOk {
      return false;
    }
    if userId in db.users {
      db.users := db.users[userId := db.users[userId].(pinHash := Some(pinHash))];
    }
    return true;
  }

  method VerifyPIN(db: Database, userId: UserId, pin: string, compare: (string, Digest) -> bool, readOk: bool)
    returns (r: UserTable.PinResult)
    ensures r == UserTable.VerifyPIN(db.Contents(), userId, pin, compare, readOk)
  {
    if !readOk || userId !in db.users {
      return UserTable.PinError;
    }
    var stored := db.users[userId].pinHash;
    if stored.None? || stored.value == "" {
      return UserTable.PinNotSet;
    }
    return if compare(pin, stored.value) then UserTable.PinMatches else UserTable.PinMismatch;
  }
}
