/**
 * The account manager of main.js. The two stored values, the user list under
 * `users` and the session descriptor under `currentUser`, are the fields of
 * `Manager`; every operation reads the list, changes it and writes it back
 * whole. `Math.random()` and `new Date().toISOString()` are parameters.
 */
module Bank {
  import opened Accounts
  import opened Ledger

  /** The three users written to an empty store when the manager starts. */
  const DefaultUsers: seq<User> := [
    User("Jessica Davis", "user1", 123456, NumberPin(1111), 1.5, [
      Transaction(Deposit, 500, "2024-10-01T13:15:33.035Z"),
      Transaction(Withdrawal, 200, "2024-10-05T09:48:16.867Z"),
      Transaction(Deposit, 100, "2024-10-07T14:11:59.604Z"),
      Transaction(Loan, 800, "2024-10-15T17:01:17.194Z"),
      Transaction(Deposit, 300, "2024-10-18T23:36:17.929Z")]),
    User("Michael Johnson", "user2", 234567, NumberPin(2222), 2.0, [
      Transaction(Deposit, 900, "2024-09-25T11:24:33.035Z"),
      Transaction(Withdrawal, 200, "2024-09-28T14:48:16.867Z"),
      Transaction(Deposit, 500, "2024-09-30T10:11:59.604Z"),
      Transaction(Loan, 600, "2024-10-19T09:01:17.194Z"),
      Transaction(Deposit, 400, "2024-10-20T12:36:17.929Z")]),
    User("Emily Clark", "user3", 345678, NumberPin(3333), 1.8, [
      Transaction(Deposit, 1000, "2024-10-03T13:55:33.035Z"),
      Transaction(Withdrawal, 300, "2024-10-06T16:35:16.867Z"),
      Transaction(Deposit, 200, "2024-10-09T18:20:59.604Z"),
      Transaction(Loan, 1200, "2024-10-14T21:01:17.194Z"),
      Transaction(Deposit, 500, "2024-10-19T23:10:17.929Z")])
  ]

  /** The first default user's figures: balance 1500, incomes 1700,
      outcomes 200 and interest 800 * 1.5 / 100. */
  lemma DefaultUserFigures()
    ensures Balance(DefaultUsers[0].transactions) == 1500
    ensures TransactionSummary(DefaultUsers[0].transactions, DefaultUsers[0].interestRate)
         == Summary(1700, 200, 12.0)
  {
    var ts := DefaultUsers[0].transactions;
    assert IsScenario(ts);
    ScenarioFigures(ts, 1.5);
  }

  /** Deposit 500, withdrawal 200, deposit 100, loan 800, deposit 300. */
  predicate IsScenario(ts: seq<Transaction>) {
    && |ts| == 5
    && ts[0].kind == Deposit && ts[0].amount == 500
    && ts[1].kind == Withdrawal && ts[1].amount == 200
    && ts[2].kind == Deposit && ts[2].amount == 100
    && ts[3].kind == Kind.Loan && ts[3].amount == 800
    && ts[4].kind == Deposit && ts[4].amount == 300
  }

  lemma ScenarioFigures(ts: seq<Transaction>, rate: real)
    requires IsScenario(ts)
    ensures Balance(ts) == 1500
    ensures TransactionSummary(ts, rate) == Summary(1700, 200, Share(800, rate))
  {
    ScenarioBalance(ts);
    ScenarioSummary(ts, rate);
  }

  lemma ScenarioSummary(ts: seq<Transaction>, rate: real)
    requires IsScenario(ts)
    ensures TransactionSummary(ts, rate) == Summary(1700, 200, Share(800, rate))
  {
    ScenarioIncomes(ts, rate);
    ScenarioOutcomes(ts, rate);
    ScenarioInterest(ts, rate);
  }

  lemma ScenarioIncomes(ts: seq<Transaction>, rate: real)
    requires IsScenario(ts)
    ensures Incomes(ts) == 1700
  {
    ScenarioEarlyIncomes(ts, rate);
    IncomesStep(ts, 3, 600);
    IncomesStep(ts, 4, 1400);
    assert ts[..5] == ts;
  }

  /** The first three transactions bring in 600. */
  lemma ScenarioEarlyIncomes(ts: seq<Transaction>, rate: real)
    requires IsScenario(ts)
    ensures Incomes(ts[..3]) == 600
  {
    EmptyFields(ts[..0], rate);
    IncomesStep(ts, 0, 0);
    IncomesStep(ts, 1, 500);
    IncomesStep(ts, 2, 500);
  }

  lemma ScenarioOutcomes(ts: seq<Transaction>, rate: real)
    requires IsScenario(ts)
    ensures Outcomes(ts) == 200
  {
    EmptyFields(ts[..0], rate);
    OutcomesStep(ts, 0, 0);
    OutcomesStep(ts, 1, 0);
    OutcomesStep(ts, 2, 200);
    OutcomesStep(ts, 3, 200);
    OutcomesStep(ts, 4, 200);
    assert ts[..5] == ts;
  }

  lemma ScenarioInterest(ts: seq<Transaction>, rate: real)
    requires IsScenario(ts)
    ensures Interest(ts, rate) == Share(800, rate)
  {
    EmptyFields(ts[..0], rate);
    InterestStep(ts, rate, 0, 0.0);
    InterestStep(ts, rate, 1, 0.0);
    InterestStep(ts, rate, 2, 0.0);
    InterestStep(ts, rate, 3, 0.0);
    InterestStep(ts, rate, 4, Share(800, rate));
    assert ts[..5] == ts;
  }

  lemma ScenarioBalance(ts: seq<Transaction>)
    requires IsScenario(ts)
    ensures Balance(ts) == 1500
  {
    assert Balance(ts[..0]) == 0;
    ScenarioBalanceStep(ts, 0, 0);
    ScenarioBalanceStep(ts, 1, 500);
    ScenarioBalanceStep(ts, 2, 300);
    ScenarioBalanceStep(ts, 3, 400);
    ScenarioBalanceStep(ts, 4, 1200);
    assert ts[..5] == ts;
  }

  lemma EmptyFields(ts: seq<Transaction>, rate: real)
    requires ts == []
    ensures Incomes(ts) == 0 && Outcomes(ts) == 0 && Interest(ts, rate) == 0.0
  {
    assert Filter(ts, IsIncome) == Filter(ts, IsOutcome) == Filter(ts, IsLoan) == [];
  }

  lemma ScenarioBalanceStep(ts: seq<Transaction>, k: nat, before: int)
    requires IsScenario(ts) && k < 5
    requires Balance(ts[..k]) == before
    ensures Balance(ts[..k + 1]) == before + Signed(ts[k])
  {
    assert ts[..k + 1] == ts[..k] + [ts[k]];
    BalancePush(ts[..k], ts[k]);
  }

  lemma IncomesStep(ts: seq<Transaction>, k: nat, before: int)
    requires IsScenario(ts) && k < 5 && Incomes(ts[..k]) == before
    ensures Incomes(ts[..k + 1]) == before + (if IsIncome(ts[k].kind) then ts[k].amount else 0)
  {
    assert ts[..k + 1] == ts[..k] + [ts[k]];
    FilteredSumPush(ts[..k], ts[k], IsIncome);
  }

  lemma OutcomesStep(ts: seq<Transaction>, k: nat, before: int)
    requires IsScenario(ts) && k < 5 && Outcomes(ts[..k]) == before
    ensures Outcomes(ts[..k + 1]) == before + (if IsOutcome(ts[k].kind) then ts[k].amount else 0)
  {
    assert ts[..k + 1] == ts[..k] + [ts[k]];
    FilteredSumPush(ts[..k], ts[k], IsOutcome);
  }

  lemma InterestStep(ts: seq<Transaction>, rate: real, k: nat, before: real)
    requires IsScenario(ts) && k < 5 && Interest(ts[..k], rate) == before
    ensures Interest(ts[..k + 1], rate) == before + (if IsLoan(ts[k].kind) then Share(ts[k].amount, rate) else 0.0)
  {
    assert ts[..k + 1] == ts[..k] + [ts[k]];
    InterestPush(ts[..k], ts[k], rate);
  }

  /** `new BankAccountUser({fullName, userName, pin})`: no transactions, and
      the account number is drawn before the interest rate. */
  function NewUser(fullName: string, userName: string, pin: int,
                   accountRandom: real, rateRandom: real): (u: User)
    requires 0.0 <= accountRandom < 1.0 && 0.0 <= rateRandom < 1.0
    ensures u.fullName == fullName && u.userName == userName && u.pin == NumberPin(pin)
    ensures u.transactions == []
    ensures u.accountNumber == GenerateAccountNumber(accountRandom)
    ensures MinAccountNumber <= u.accountNumber <= MaxAccountNumber
    ensures u.interestRate == GenerateInterestRate(rateRandom)
    ensures 0.0 <= u.interestRate <= 3.0
  {
    User(fullName, userName, GenerateAccountNumber(accountRandom), NumberPin(pin),
         GenerateInterestRate(rateRandom), [])
  }

  /** The users after a successful transfer: the sender at index `s` has a
      withdrawal pushed, the recipient at index `r` a deposit. */
  function Transferred(users: seq<User>, s: nat, r: nat, amount: int,
                       sentAt: string, receivedAt: string): seq<User>
    requires s < |users| && r < |users|
  {
    users[s := WithTransaction(users[s], Transaction(Withdrawal, amount, sentAt))]
         [r := WithTransaction(users[r], Transaction(Deposit, amount, receivedAt))]
  }

  /** A transfer between two different users moves `amount` from one to the
      other: the sum of all balances is unchanged, the sender's balance drops
      by `amount`, the recipient's rises by it, no other user changes. */
  lemma TransferConservesMoney(users: seq<User>, s: nat, r: nat, amount: int,
                               sentAt: string, receivedAt: string)
    requires s < |users| && r < |users| && s != r
    ensures var after := Transferred(users, s, r, amount, sentAt, receivedAt);
      && |after| == |users|
      && TotalBalance(after) == TotalBalance(users)
      && Balance(after[s].transactions) == Balance(users[s].transactions) - amount
      && Balance(after[r].transactions) == Balance(users[r].transactions) + amount
      && forall k :: 0 <= k < |users| && k != s && k != r ==> after[k] == users[k]
  {
    var w := WithTransaction(users[s], Transaction(Withdrawal, amount, sentAt));
    var d := WithTransaction(users[r], Transaction(Deposit, amount, receivedAt));
    BalancePush(users[s].transactions, Transaction(Withdrawal, amount, sentAt));
    BalancePush(users[r].transactions, Transaction(Deposit, amount, receivedAt));
    TotalBalanceUpdate(users, s, w);
    TotalBalanceUpdate(users[s := w], r, d);
  }

  class Manager {
    var users: seq<User>
    var session: Option<Session>

    /** User names are pairwise distinct: `register` refuses a taken name
        and no other operation renames anyone. */
    predicate Valid()
      reads this
    {
      UniqueNames(users)
    }

    /** The manager over what the store holds; `setDefaultUsers` fills an
        empty list with the default users. */
    constructor (stored: seq<User>, saved: Option<Session>)
      requires UniqueNames(stored)
      ensures Valid()
      ensures users == (if stored == [] then DefaultUsers else stored)
      ensures session == saved
    {
      users := if stored == [] then DefaultUsers else stored;
      session := saved;
    }

    /** `getCurrentUser`: the first stored user with the session's name. */
    function CurrentIndex(): (r: Option<nat>)
      reads this
      ensures r.Some? ==> session.Some? && r.value < |users| &&
                          users[r.value].userName == session.value.userName &&
                          forall j :: 0 <= j < r.value ==> users[j].userName != session.value.userName
      ensures r.None? <==> session.None? || !HasName(users, session.value.userName)
    {
      match session
      case None => None
      case Some(s) => IndexOfName(users, s.userName)
    }

    function CurrentUser(): (r: Option<User>)
      reads this
      ensures r.None? <==> session.None? || !HasName(users, session.value.userName)
      ensures r.Some? ==> exists i :: 0 <= i < |users| && users[i] == r.value &&
                            users[i].userName == session.value.userName &&
                            forall j :: 0 <= j < i ==> users[j].userName != session.value.userName
    {
      match CurrentIndex()
      case None => None
      case Some(i) => Some(users[i])
    }

    /** `isAuthenticated`: the session names a user that is still stored. */
    predicate IsAuthenticated()
      reads this
      ensures IsAuthenticated() <==> session.Some? && HasName(users, session.value.userName)
    {
      CurrentIndex().Some?
    }

    /** `calculateBalance` of the current user; reading the transactions of
        `undefined` throws when the session resolves to nobody. */
    function CalculateBalance(): (r: Answer<int>)
      reads this
      ensures r.Returns? <==> IsAuthenticated()
      ensures r.Returns? && KnownKinds(CurrentUser().value.transactions) ==>
                r.value == Incomes(CurrentUser().value.transactions)
                         - Outcomes(CurrentUser().value.transactions)
    {
      match CurrentUser()
      case None => Throws
      case Some(u) =>
        assert KnownKinds(u.transactions) ==>
                 Balance(u.transactions) == Incomes(u.transactions) - Outcomes(u.transactions) by {
          if KnownKinds(u.transactions) { BalanceIsIncomesMinusOutcomes(u.transactions); }
        }
        Returns(Balance(u.transactions))
    }

    /** `getTransactionSummary` of the current user. */
    function GetTransactionSummary(): (r: Answer<Summary>)
      reads this
      ensures r.Returns? <==> IsAuthenticated()
      ensures r.Returns? ==>
                var u := CurrentUser().value;
                && r.value.incomes == Incomes(u.transactions)
                && r.value.outcomes == Outcomes(u.transactions)
                && r.value.interest == Share(SumAmounts(Filter(u.transactions, IsLoan)), u.interestRate)
      ensures r.Returns? && KnownKinds(CurrentUser().value.transactions) ==>
                r.value.incomes - r.value.outcomes == CalculateBalance().value
    {
      match CurrentUser()
      case None => Throws
      case Some(u) =>
        Returns(TransactionSummary(u.transactions, u.interestRate))
    }

    /** `findUserByAccountNumber`: the first user holding that number. */
    function FindUserByAccountNumber(n: int): (r: Option<User>)
      reads this
      ensures r.Some? ==> exists i :: 0 <= i < |users| && users[i] == r.value &&
                            users[i].accountNumber == n &&
                            forall j :: 0 <= j < i ==> users[j].accountNumber != n
      ensures r.None? <==> forall i :: 0 <= i < |users| ==> users[i].accountNumber != n
    {
      match IndexOfAccount(users, n)
      case None => None
      case Some(i) => Some(users[i])
    }

    /** `updateUserData`: every stored user with the same name becomes `user`. */
    method UpdateUserData(user: User)
      requires Valid()
      modifies this
      ensures Valid()
      ensures users == ReplaceByName(old(users), user)
      ensures session == old(session)
    {
      users := ReplaceByName(users, user);
    }

    method Register(fullName: string, userName: string, pin: int,
                    accountRandom: real, rateRandom: real) returns (r: Outcome)
      requires Valid()
      requires 0.0 <= accountRandom < 1.0 && 0.0 <= rateRandom < 1.0
      modifies this
      ensures Valid()
      ensures r == (if HasName(old(users), userName) then Err(AlreadyRegistered) else Ok)
      ensures r.Err? ==> users == old(users) && session == old(session)
      ensures r.Ok? ==>
        var u := NewUser(fullName, userName, pin, accountRandom, rateRandom);
        && users == old(users) + [u]
        && session == Some(Session(userName, u.accountNumber))
        && CurrentUser() == Some(u)
    {
      if IndexOfName(users, userName).Some? {
        return Err(AlreadyRegistered);
      }
      var u := NewUser(fullName, userName, pin, accountRandom, rateRandom);
      ghost var before := users;
      users := users + [u];
      session := Some(Session(u.userName, u.accountNumber));
      assert users[|before|] == u;
      assert IndexOfName(users, userName) == Some(|before|) by {
        forall j | 0 <= j < |before| ensures users[j].userName != userName {
          assert users[j] == before[j];
        }
      }
      return Ok;
    }

    method Login(userName: string, pin: int) returns (r: Outcome)
      requires Valid()
      modifies this
      ensures Valid() && users == old(users)
      ensures r.Ok? || r == Err(InvalidCredentials)
      ensures r.Ok? <==> exists i :: 0 <= i < |users| &&
                          users[i].userName == userName && users[i].pin == NumberPin(pin)
      ensures r.Err? ==> session == old(session)
      ensures r.Ok? ==> var i := IndexOfCredentials(users, userName, NumberPin(pin)).value;
                        session == Some(Session(userName, users[i].accountNumber))
      ensures r.Ok? ==> IsAuthenticated() && CurrentUser().value.pin == NumberPin(pin)
    {
      match IndexOfCredentials(users, userName, NumberPin(pin))
      case None =>
        return Err(InvalidCredentials);
      case Some(i) =>
        session := Some(Session(users[i].userName, users[i].accountNumber));
        assert CurrentIndex() == Some(i);
        return Ok;
    }

    method Logout() returns (r: Outcome)
      requires Valid()
      modifies this
      ensures Valid() && users == old(users)
      ensures r == (if old(IsAuthenticated()) then Ok else Err(NotAuthenticated))
      ensures r.Ok? ==> session == None
      ensures r.Err? ==> session == old(session)
      ensures !IsAuthenticated()
    {
      if !IsAuthenticated() {
        return Err(NotAuthenticated);
      }
      session := None;
      return Ok;
    }

    method DeleteAccount(userName: string, pin: int) returns (r: Outcome)
      requires Valid()
      modifies this
      ensures Valid() && session == old(session)
      ensures !old(IsAuthenticated()) ==> r == Thrown
      ensures old(IsAuthenticated()) ==>
        r == (if old(CurrentUser()).value.userName == userName &&
                 old(CurrentUser()).value.pin == NumberPin(pin)
              then Ok else Err(InvalidCredentials))
      ensures !r.Ok? ==> users == old(users)
      ensures r.Ok? ==> var i := old(CurrentIndex()).value;
        && users == RemoveName(old(users), userName)
        && users == old(users)[..i] + old(users)[i + 1..]
        && !IsAuthenticated()
    {
      match CurrentIndex()
      case None =>
        return Thrown;
      case Some(i) =>
        if users[i].userName != userName || users[i].pin != NumberPin(pin) {
          return Err(InvalidCredentials);
        }
        ghost var before := users;
        RemoveUniqueName(users, i);
        RemoveNameUnique(users, userName);
        users := RemoveName(users, userName);
        assert users == before[..i] + before[i + 1..];
        return Ok;
    }

    method TransferMoney(toAccountNumber: int, amount: int,
                         sentAt: string, receivedAt: string) returns (r: Outcome)
      requires Valid()
      modifies this
      ensures Valid() && session == old(session) && |users| == |old(users)|
      ensures TotalBalance(users) == old(TotalBalance(users))
      ensures !r.Ok? ==> users == old(users)
      ensures r == TransferCheck(old(users), old(CurrentIndex()), toAccountNumber, amount)
      ensures r.Ok? ==>
        var s := old(CurrentIndex()).value;
        var t := IndexOfAccount(old(users), toAccountNumber).value;
        && users == Transferred(old(users), s, t, amount, sentAt, receivedAt)
        && s != t
        && Balance(users[s].transactions) == Balance(old(users)[s].transactions) - amount >= 0
        && CalculateBalance() == Returns(Balance(users[s].transactions))
    {
      var current := CurrentIndex();
      var recipient := IndexOfAccount(users, toAccountNumber);
      if recipient.None? {
        return Err(RecipientNotFound(toAccountNumber));
      }
      if current.None? {
        return Thrown;
      }
      var s, t := current.value, recipient.value;
      if users[s].accountNumber == users[t].accountNumber {
        return Err(OwnAccount);
      }
      var balance := CalculateBalance();
      if balance.value < amount {
        return Err(InsufficientBalance);
      }
      ghost var before := users;
      var sender := WithTransaction(users[s], Transaction(Withdrawal, amount, sentAt));
      var receiver := WithTransaction(users[t], Transaction(Deposit, amount, receivedAt));
      ReplaceUniqueName(users, s, sender);
      UpdateUserData(sender);
      ReplaceUniqueName(users, t, receiver);
      UpdateUserData(receiver);
      TransferConservesMoney(before, s, t, amount, sentAt, receivedAt);
      assert CurrentIndex() == Some(s) by {
        SameNamesSameIndex(before, users, session.value.userName);
      }
      return Ok;
    }

    method Loan(amount: int, at: string) returns (r: Outcome)
      requires Valid()
      modifies this
      ensures Valid() && session == old(session) && |users| == |old(users)|
      ensures r == (if old(IsAuthenticated()) then Ok else Thrown)
      ensures !r.Ok? ==> users == old(users)
      ensures r.Ok? ==>
        var i := old(CurrentIndex()).value;
        && users == old(users)[i := WithTransaction(old(users)[i], Transaction(Kind.Loan, amount, at))]
        && CalculateBalance() == Returns(old(CalculateBalance()).value + amount)
        && TotalBalance(users) == old(TotalBalance(users)) + amount
    {
      match CurrentIndex()
      case None =>
        return Thrown;
      case Some(i) =>
        ghost var before := users;
        assert CalculateBalance() == Returns(Balance(before[i].transactions));
        var u := WithTransaction(users[i], Transaction(Kind.Loan, amount, at));
        ReplaceUniqueName(users, i, u);
        UpdateUserData(u);
        BalancePush(before[i].transactions, Transaction(Kind.Loan, amount, at));
        TotalBalanceUpdate(before, i, u);
        assert CurrentIndex() == Some(i) by {
          SameNamesSameIndex(before, users, session.value.userName);
        }
        assert users[i] == u;
        assert CalculateBalance() == Returns(Balance(u.transactions));
        return Ok;
    }
  }

  /** The order of checks in `transferMoney`: unknown recipient, then the
      dereference of the current user, then own account, then balance. */
  function TransferCheck(users: seq<User>, current: Option<nat>, to: int, amount: int): (r: Outcome)
    requires current.Some? ==> current.value < |users|
    ensures r.Ok? || r.Thrown? || r.error in {RecipientNotFound(to), OwnAccount, InsufficientBalance}
    ensures r == Err(RecipientNotFound(to)) <==> !HasAccount(users, to)
    ensures r.Thrown? <==> HasAccount(users, to) && current.None?
    ensures r == Err(OwnAccount) <==>
              HasAccount(users, to) && current.Some? && users[current.value].accountNumber == to
    ensures r.Ok? <==> && HasAccount(users, to) && current.Some?
                       && users[current.value].accountNumber != to
                       && Balance(users[current.value].transactions) >= amount
  {
    match IndexOfAccount(users, to)
    case None => Err(RecipientNotFound(to))
    case Some(t) =>
      if current.None? then Thrown
      else if users[current.value].accountNumber == users[t].accountNumber then Err(OwnAccount)
      else if Balance(users[current.value].transactions) < amount then Err(InsufficientBalance)
      else Ok
  }

  /** Lists with the same names position by position find a name at the same index. */
  lemma {:induction false} SameNamesSameIndex(a: seq<User>, b: seq<User>, name: string)
    requires |a| == |b| && forall k :: 0 <= k < |a| ==> a[k].userName == b[k].userName
    ensures IndexOfName(a, name) == IndexOfName(b, name)
  {
    if a != [] {
      SameNamesSameIndex(a[1..], b[1..], name);
    }
  }
}
