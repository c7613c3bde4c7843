/**
 * The earlier draft of the account manager, src/main.js. Its state lives in
 * a key-value store (`StorageManager` over `localStorage`), modelled as a
 * map from keys to the JSON values stored under them; the manager keeps the
 * user list under `users` and the session descriptor under `currentUser`.
 */
module DraftBank {
  import opened Accounts
  import opened Ledger

  /** A JSON value as `StorageManager.get` hands it back. */
  datatype Value =
    | Null
    | Bool(b: bool)
    | Num(n: int)
    | Str(s: string)
    | UserList(users: seq<User>)
    | UserRecord(user: User)
    | SessionRecord(session: Session)

  /** JavaScript truthiness: `null`, `false`, `0` and `""` are falsy; arrays
      and objects, even empty ones, are truthy. */
  predicate Truthy(v: Value) {
    match v
    case Null => false
    case Bool(b) => b
    case Num(n) => n != 0
    case Str(s) => s != ""
    case _ => true
  }

  /** `get(key)`: the stored value, or `null` for a missing key. */
  function Lookup(entries: map<string, Value>, key: string): Value {
    if key in entries then entries[key] else Null
  }

  /** The store after `add(key, value)`: written only when `get(key)` is falsy. */
  function Added(entries: map<string, Value>, key: string, value: Value): map<string, Value> {
    if Truthy(Lookup(entries, key)) then entries else entries[key := value]
  }

  /** `add` never overwrites a truthy value, and otherwise stores `value`. */
  lemma AddKeepsPresent(entries: map<string, Value>, key: string, value: Value)
    ensures Truthy(Lookup(entries, key)) ==> Added(entries, key, value) == entries
    ensures !Truthy(Lookup(entries, key)) ==> Lookup(Added(entries, key, value), key) == value
    ensures forall k :: k != key ==> Lookup(Added(entries, key, value), k) == Lookup(entries, k)
  {
  }

  /** Once `add` has stored a truthy value, a second `add` on the same key
      changes nothing. */
  lemma AddTwice(entries: map<string, Value>, key: string, first: Value, second: Value)
    requires Truthy(first)
    ensures Added(Added(entries, key, first), key, second) == Added(entries, key, first)
  {
  }

  class Storage {
    var entries: map<string, Value>

    constructor (initial: map<string, Value>)
      ensures entries == initial
    {
      entries := initial;
    }

    /** `get`: the parsed value under `key`, `null` when there is none. */
    function Get(key: string): (v: Value)
      reads this
      ensures key in entries ==> v == entries[key]
      ensures key !in entries ==> v == Null
    {
      Lookup(entries, key)
    }

    /** `add`: writes only when the key holds nothing truthy (otherwise the
        code logs a warning). */
    method Add(key: string, value: Value)
      modifies this
      ensures entries == Added(old(entries), key, value)
    {
      var existing := Get(key);
      if !Truthy(existing) {
        entries := entries[key := value];
      }
    }

    method Set(key: string, value: Value)
      modifies this
      ensures entries == old(entries)[key := value]
    {
      entries := entries[key := value];
    }

    method Remove(key: string)
      modifies this
      ensures entries == old(entries) - {key}
    {
      entries := entries - {key};
    }
  }

  const UsersKey := "users"
  const CurrentUserKey := "currentUser"

  /** What the manager keeps in the store: a user list (or nothing) under
      `users`, a session descriptor (or nothing) under `currentUser`. */
  predicate WellTyped(entries: map<string, Value>) {
    && (Lookup(entries, UsersKey).Null? || Lookup(entries, UsersKey).UserList?)
    && (Lookup(entries, CurrentUserKey).Null? || Lookup(entries, CurrentUserKey).SessionRecord?)
  }

  /** `new BankAccountUser({..., accountNumber})`: a truthy account number
      passed in is kept, anything else is replaced by a fresh draw. */
  function NewUser(fullName: string, userName: string, pin: Pin, interestRate: real,
                   accountNumber: Option<int>, accountRandom: real): (u: User)
    requires 0.0 <= accountRandom < 1.0
    ensures u.fullName == fullName && u.userName == userName && u.pin == pin
    ensures u.interestRate == interestRate && u.transactions == []
    ensures accountNumber.Some? && accountNumber.value != 0 ==> u.accountNumber == accountNumber.value
    ensures accountNumber.None? || accountNumber.value == 0 ==>
              MinAccountNumber <= u.accountNumber <= MaxAccountNumber
  {
    var n := if accountNumber.Some? && accountNumber.value != 0 then accountNumber.value
             else GenerateAccountNumber(accountRandom);
    User(fullName, userName, n, pin, interestRate, [])
  }

  class Manager {
    const storage: Storage

    predicate Valid()
      reads storage
    {
      WellTyped(storage.entries)
    }

    constructor (initial: map<string, Value>)
      requires WellTyped(initial)
      ensures Valid() && fresh(storage) && storage.entries == initial
    {
      storage := new Storage(initial);
    }

    /** `getUsers`: the stored list, `[]` when `null` is stored or nothing. */
    function GetUsers(): (users: seq<User>)
      reads storage
      ensures UsersKey in storage.entries && storage.entries[UsersKey].UserList? ==>
                users == storage.entries[UsersKey].users
      ensures Valid() && !(UsersKey in storage.entries && storage.entries[UsersKey].UserList?) ==>
                users == []
    {
      match storage.Get(UsersKey)
      case UserList(users) => users
      case _ => []
    }

    /** `getCurrentUser`: the stored session descriptor itself, not a user. */
    function GetCurrentUser(): (v: Value)
      reads storage
      ensures CurrentUserKey in storage.entries ==> v == storage.entries[CurrentUserKey]
      ensures CurrentUserKey !in storage.entries ==> v == Null
      ensures Valid() ==> v.Null? || v.SessionRecord?
    {
      storage.Get(CurrentUserKey)
    }

    /** `isAuthenticated`: a truthy value is stored under `currentUser`, that
        is, a session descriptor is stored. Whether its user still exists is
        not looked at. */
    predicate IsAuthenticated()
      reads storage
      ensures Valid() ==> (IsAuthenticated() <==> CurrentUserKey in storage.entries &&
                                                  storage.entries[CurrentUserKey].SessionRecord?)
    {
      Truthy(GetCurrentUser())
    }

    method Register(fullName: string, userName: string, pin: Pin,
                    rateRandom: real, accountRandom: real) returns (r: Outcome)
      requires Valid()
      requires 0.0 <= rateRandom < 1.0 && 0.0 <= accountRandom < 1.0
      modifies storage
      ensures Valid()
      ensures r == (if HasName(old(GetUsers()), userName) then Err(AlreadyRegistered) else Ok)
      ensures r.Err? ==> storage.entries == old(storage.entries)
      ensures r.Ok? ==>
        var u := NewUser(fullName, userName, pin, GenerateInterestRate(rateRandom), None, accountRandom);
        && storage.entries == old(storage.entries)[UsersKey := UserList(old(GetUsers()) + [u])]
                                                  [CurrentUserKey := SessionRecord(Session(userName, u.accountNumber))]
        && GetUsers() == old(GetUsers()) + [u]
        && IsAuthenticated()
    {
      var users := GetUsers();
      if IndexOfName(users, userName).Some? {
        return Err(AlreadyRegistered);
      }
      var rate := GenerateInterestRate(rateRandom);
      var u := NewUser(fullName, userName, pin, rate, None, accountRandom);
      users := users + [u];
      storage.Set(UsersKey, UserList(users));
      storage.Set(CurrentUserKey, SessionRecord(Session(u.userName, u.accountNumber)));
      return Ok;
    }

    method Login(userName: string, pin: Pin) returns (r: Outcome)
      requires Valid()
      modifies storage
      ensures Valid() && GetUsers() == old(GetUsers())
      ensures r.Ok? || r == Err(InvalidCredentials)
      ensures r.Ok? <==> exists i :: 0 <= i < |GetUsers()| &&
                          GetUsers()[i].userName == userName && GetUsers()[i].pin == pin
      ensures r.Err? ==> storage.entries == old(storage.entries)
      ensures r.Ok? ==>
        var u := GetUsers()[IndexOfCredentials(GetUsers(), userName, pin).value];
        storage.entries == old(storage.entries)[CurrentUserKey := SessionRecord(Session(userName, u.accountNumber))]
    {
      var users := GetUsers();
      match IndexOfCredentials(users, userName, pin)
      case None =>
        return Err(InvalidCredentials);
      case Some(i) =>
        storage.Set(CurrentUserKey, SessionRecord(Session(users[i].userName, users[i].accountNumber)));
        return Ok;
    }

    method Logout() returns (r: Outcome)
      requires Valid()
      modifies storage
      ensures Valid() && GetUsers() == old(GetUsers())
      ensures r == (if old(IsAuthenticated()) then Ok else Err(NotAuthenticated))
      ensures r.Ok? ==> storage.entries == old(storage.entries) - {CurrentUserKey}
      ensures r.Err? ==> storage.entries == old(storage.entries)
      ensures !IsAuthenticated()
    {
      if !IsAuthenticated() {
        return Err(NotAuthenticated);
      }
      storage.Remove(CurrentUserKey);
      return Ok;
    }

    /** Removes every user with the name once the credentials match some
        stored user, then calls `this.logout()` without its argument object:
        destructuring `undefined` throws after the list is already written,
        so the session stays and `onSuccess` never runs. */
    method DeleteAccount(userName: string, pin: Pin) returns (r: Outcome)
      requires Valid()
      modifies storage
      ensures Valid()
      ensures r == (if !old(IsAuthenticated()) then Err(NotAuthenticated)
                    else if IndexOfCredentials(old(GetUsers()), userName, pin).None? then Err(InvalidCredentials)
                    else Thrown)
      ensures r.Err? ==> storage.entries == old(storage.entries)
      ensures r.Thrown? ==>
        && storage.entries == old(storage.entries)[UsersKey := UserList(RemoveName(old(GetUsers()), userName))]
        && !HasName(GetUsers(), userName)
        && IsAuthenticated()
    {
      if !IsAuthenticated() {
        return Err(NotAuthenticated);
      }
      var users := GetUsers();
      if IndexOfCredentials(users, userName, pin).None? {
        return Err(InvalidCredentials);
      }
      storage.Set(UsersKey, UserList(RemoveName(users, userName)));
      return Thrown;
    }

    /** `calculateBalance` as written: it reads `transactions` off what
        `getCurrentUser` returns. Only a full user record has that field;
        `null` and the session descriptor do not, and `.reduce` on the
        missing field throws. */
    function CalculateBalance(): (r: Answer<int>)
      reads storage
      ensures Valid() ==> r == Throws
    {
      match GetCurrentUser()
      case UserRecord(u) => Returns(SumAmounts(u.transactions))
      case _ => Throws
    }

    /** The balance the draft evidently meant: the plain sum of the amounts
        of the stored user named by the session. */
    function StoredUserBalance(): (r: Answer<int>)
      reads storage
      requires Valid()
      ensures r.Returns? <==> GetCurrentUser().SessionRecord? &&
                              HasName(GetUsers(), GetCurrentUser().session.userName)
      ensures r.Returns? ==>
        var u := GetUsers()[IndexOfName(GetUsers(), GetCurrentUser().session.userName).value];
        r.value == Balance(u.transactions) + 2 * SumAmounts(Filter(u.transactions, IsDebit))
    {
      var current := GetCurrentUser();
      var users := GetUsers();
      if !current.SessionRecord? then Throws
      else
        match IndexOfName(users, current.session.userName)
        case None => Throws
        case Some(i) =>
          SumAmountsVersusBalance(users[i].transactions);
          Returns(SumAmounts(users[i].transactions))
    }
  }
}
