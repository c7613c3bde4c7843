/**
 * Records shared by both drafts of the bank account manager: users, their
 * transactions, the session descriptor, the outcomes reported to callers,
 * and the array helpers (`find`, `filter`, `map`) the managers use on the
 * stored user list.
 */
module Accounts {

  datatype Option<T> = None | Some(value: T)

  /** The `type` string of a transaction. `Other` stands for any string the
      code does not name; the balance fold subtracts it like a withdrawal. */
  datatype Kind = Deposit | Withdrawal | Loan | Other(name: OtherKind)

  /** A type string other than the three the code compares against. */
  type OtherKind = s: string | s !in {"deposit", "withdrawal", "loan"} witness "transfer"

  /** One entry of a user's transaction history; `date` is the ISO time stamp. */
  datatype Transaction = Transaction(kind: Kind, amount: int, date: string)

  /** A PIN as the JavaScript value it is stored as: main.js converts the
      input with `Number(...)`, src/main.js keeps the input string. Strict
      equality (`===`) never equates a number with a string, and neither
      does equality on this datatype. */
  datatype Pin = NumberPin(n: int) | StringPin(s: string)

  /** A stored user. */
  datatype User = User(
    fullName: string,
    userName: string,
    accountNumber: int,
    pin: Pin,
    interestRate: real,
    transactions: seq<Transaction>)

  /** The value stored under the `currentUser` key. */
  datatype Session = Session(userName: string, accountNumber: int)

  /** The failures reported through `onError`. */
  datatype Error =
    | AlreadyRegistered
    | InvalidCredentials
    | NotAuthenticated
    | RecipientNotFound(account: int)
    | OwnAccount
    | InsufficientBalance

  /** How an operation ends: `onSuccess`, `onError(message)`, or a TypeError
      escaping from the operation (a property read on `undefined`). */
  datatype Outcome = Ok | Err(error: Error) | Thrown

  /** How a query ends: a returned value, or a TypeError escaping from it. */
  datatype Answer<T> = Returns(value: T) | Throws

  /** The message text handed to `onError`. */
  function Message(e: Error): (m: string)
    ensures |m| > 0
    ensures e.RecipientNotFound? ==> "Recipient account " + IntToString(e.account) <= m
  {
    match e
    case AlreadyRegistered => "User already registered"
    case InvalidCredentials => "Invalid user name or pin"
    case NotAuthenticated => "User is not authenticated"
    case RecipientNotFound(n) => "Recipient account " + IntToString(n) + " not found"
    case OwnAccount => "Cannot transfer money to your own account"
    case InsufficientBalance => "You do not have enough balance to transfer"
  }

  /** The number a string of decimal digits denotes, read left to right. */
  function DecimalValue(s: string): int {
    if s == [] then 0 else 10 * DecimalValue(s[..|s| - 1]) + ((s[|s| - 1] as int) - ('0' as int))
  }

  /** The decimal digits of `n`, without leading zeros. */
  function NatToString(n: nat): (r: string)
    ensures |r| > 0 && (forall i :: 0 <= i < |r| ==> '0' <= r[i] <= '9')
    ensures r[0] == '0' ==> n == 0
    ensures DecimalValue(r) == n
  {
    if n < 10 then ["0123456789"[n]]
    else NatToString(n / 10) + ["0123456789"[n % 10]]
  }

  /** `String(i)` for an integer: a minus sign before the digits of a
      negative number. */
  function IntToString(i: int): (r: string)
    ensures |r| > 0
    ensures i < 0 ==> r[0] == '-' && DecimalValue(r[1..]) == -i
    ensures i >= 0 ==> '0' <= r[0] <= '9' && DecimalValue(r) == i
    ensures var d := if i < 0 then 1 else 0;
      && d < |r|
      && (forall k :: d <= k < |r| ==> '0' <= r[k] <= '9')
      && (r[d] == '0' ==> i == 0)
  {
    if i < 0 then "-" + NatToString(-i) else NatToString(i)
  }

  /** Distinct integers are rendered as distinct strings. */
  lemma IntToStringInjective(a: int, b: int)
    requires IntToString(a) == IntToString(b)
    ensures a == b
  {
    var r := IntToString(a);
    assert r == IntToString(b);
    if a < 0 {
      assert b < 0;
      assert DecimalValue(r[1..]) == -a;
    } else {
      assert b >= 0;
      assert DecimalValue(r) == a;
    }
  }

  /** The `onError` text identifies the failure: different errors never
      produce the same message. */
  lemma MessageIdentifiesError(e1: Error, e2: Error)
    requires Message(e1) == Message(e2)
    ensures e1 == e2
  {
    RecipientMessageLetter(e1);
    RecipientMessageLetter(e2);
    if e1.RecipientNotFound? && e2.RecipientNotFound? {
      var prefix := "Recipient account ";
      var m := Message(e1);
      var n1, n2 := IntToString(e1.account), IntToString(e2.account);
      assert m == prefix + n1 + " not found" == prefix + n2 + " not found";
      assert n1 == m[|prefix|..|m| - |" not found"|] == n2;
      IntToStringInjective(e1.account, e2.account);
    }
  }

  /** Only the missing-recipient message starts with 'R'. */
  lemma RecipientMessageLetter(e: Error)
    ensures Message(e)[0] == 'R' <==> e.RecipientNotFound?
  {
  }

  // ---------------------------------------------------------------------
  // The two random draws, with Math.random() passed in as `random`.

  const MinAccountNumber: int := 100000
  const MaxAccountNumber: int := 999999

  /** `Math.floor(Math.random() * 900000 + 100000)`: always six digits. */
  function GenerateAccountNumber(random: real): (n: int)
    requires 0.0 <= random < 1.0
    ensures MinAccountNumber <= n <= MaxAccountNumber
  {
    (random * 900000.0 + 100000.0).Floor
  }

  /** `(Math.random() * 3).toFixed(2)`, read back as a number: `toFixed`
      rounds half up to two decimals, so the rate is a whole number of
      hundredths between 0.00 and 3.00, both ends included. */
  function GenerateInterestRate(random: real): (rate: real)
    requires 0.0 <= random < 1.0
    ensures 0.0 <= rate <= 3.0
    ensures (rate * 100.0).Floor as real == rate * 100.0
  {
    (random * 300.0 + 0.5).Floor as real / 100.0
  }

  /** Rounding lets the rate reach 3.00, one hundredth past the open
      interval [0, 3) that `Math.random() * 3` ranges over. */
  lemma InterestRateReachesThree()
    ensures GenerateInterestRate(0.999) == 3.0
  {
    assert (0.999 * 300.0 + 0.5).Floor == 300;
  }

  // ---------------------------------------------------------------------
  // Lookups on the stored list of users.

  predicate UniqueNames(users: seq<User>) {
    forall i, j :: 0 <= i < j < |users| ==> users[i].userName != users[j].userName
  }

  predicate HasName(users: seq<User>, name: string) {
    exists i :: 0 <= i < |users| && users[i].userName == name
  }

  /** `users.find(user => user.userName === name)`, as the index found. */
  function IndexOfName(users: seq<User>, name: string): (r: Option<nat>)
    ensures r.None? <==> !HasName(users, name)
    ensures r.Some? ==> r.value < |users| && users[r.value].userName == name &&
                        forall j :: 0 <= j < r.value ==> users[j].userName != name
  {
    if users == [] then None
    else if users[0].userName == name then Some(0)
    else match IndexOfName(users[1..], name)
      case None => None
      case Some(k) => Some(k + 1)
  }

  predicate HasAccount(users: seq<User>, n: int) {
    exists i :: 0 <= i < |users| && users[i].accountNumber == n
  }

  /** `users.find(user => user.accountNumber === n)`, as the index found. */
  function IndexOfAccount(users: seq<User>, n: int): (r: Option<nat>)
    ensures r.None? <==> forall i :: 0 <= i < |users| ==> users[i].accountNumber != n
    ensures r.Some? ==> r.value < |users| && users[r.value].accountNumber == n &&
                        forall j :: 0 <= j < r.value ==> users[j].accountNumber != n
  {
    if users == [] then None
    else if users[0].accountNumber == n then Some(0)
    else match IndexOfAccount(users[1..], n)
      case None => None
      case Some(k) => Some(k + 1)
  }

  /** `users.find(user => user.userName === name && user.pin === pin)`. */
  function IndexOfCredentials(users: seq<User>, name: string, pin: Pin): (r: Option<nat>)
    ensures r.None? <==> forall i :: 0 <= i < |users| ==> !(users[i].userName == name && users[i].pin == pin)
    ensures r.Some? ==> r.value < |users| && users[r.value].userName == name && users[r.value].pin == pin &&
                        forall j :: 0 <= j < r.value ==> !(users[j].userName == name && users[j].pin == pin)
  {
    if users == [] then None
    else if users[0].userName == name && users[0].pin == pin then Some(0)
    else match IndexOfCredentials(users[1..], name, pin)
      case None => None
      case Some(k) => Some(k + 1)
  }

  /** `users.filter(user => user.userName !== name)`. */
  function RemoveName(users: seq<User>, name: string): (r: seq<User>)
    ensures |r| <= |users|
    ensures !HasName(r, name)
  {
    if users == [] then []
    else if users[0].userName == name then RemoveName(users[1..], name)
    else [users[0]] + RemoveName(users[1..], name)
  }

  /** The filter keeps exactly the users with another name. */
  lemma {:induction false} RemoveNameMembers(users: seq<User>, name: string)
    ensures forall u :: u in RemoveName(users, name) <==> u in users && u.userName != name
  {
    if users != [] {
      RemoveNameMembers(users[1..], name);
      assert users == [users[0]] + users[1..];
    }
  }

  /** Filtering keeps user names pairwise distinct. */
  lemma {:induction false} RemoveNameUnique(users: seq<User>, name: string)
    requires UniqueNames(users)
    ensures UniqueNames(RemoveName(users, name))
  {
    if users != [] {
      UniqueNamesTail(users);
      RemoveNameUnique(users[1..], name);
      if users[0].userName != name {
        RemoveKeepsHead(users, name);
        HeadNameNotKept(users, name);
        ConsUnique(users[0], RemoveName(users[1..], name));
      }
    }
  }

  lemma HeadNameNotKept(users: seq<User>, name: string)
    requires UniqueNames(users) && users != []
    ensures forall k :: 0 <= k < |RemoveName(users[1..], name)| ==>
              RemoveName(users[1..], name)[k].userName != users[0].userName
  {
    var r := RemoveName(users[1..], name);
    RemoveNameMembers(users[1..], name);
    forall k | 0 <= k < |r| ensures r[k].userName != users[0].userName {
      assert r[k] in RemoveName(users[1..], name);
      var m :| 0 <= m < |users[1..]| && users[1..][m] == r[k];
      assert users[1..][m] == users[m + 1];
    }
  }

  lemma ConsUnique(u: User, r: seq<User>)
    requires UniqueNames(r) && forall k :: 0 <= k < |r| ==> r[k].userName != u.userName
    ensures UniqueNames([u] + r)
  {
    var s := [u] + r;
    forall a, b | 0 <= a < b < |s| ensures s[a].userName != s[b].userName {
      if a == 0 {
        assert s[b] == r[b - 1];
      } else {
        assert s[a] == r[a - 1] && s[b] == r[b - 1];
      }
    }
  }

  /** With distinct names, the filter takes out exactly the one user that has
      the name and keeps the others in their order. */
  lemma {:induction false} RemoveUniqueName(users: seq<User>, i: nat)
    requires UniqueNames(users) && i < |users|
    ensures RemoveName(users, users[i].userName) == users[..i] + users[i + 1..]
  {
    var name := users[i].userName;
    var rest := users[1..];
    UniqueNamesTail(users);
    if i == 0 {
      assert !HasName(rest, name) by {
        forall k | 0 <= k < |rest| ensures rest[k].userName != name {
          assert rest[k] == users[k + 1];
        }
      }
      RemoveAbsentName(rest, name);
      assert users[..0] + users[1..] == rest;
    } else {
      assert rest[i - 1] == users[i];
      RemoveUniqueName(rest, i - 1);
      RemoveKeepsHead(users, name);
      var front, back := rest[..i - 1], rest[i..];
      assert front == users[1..i] && back == users[i + 1..];
      assert users[..i] == [users[0]] + front;
      assert [users[0]] + (front + back) == ([users[0]] + front) + back;
    }
  }

  lemma UniqueNamesTail(users: seq<User>)
    requires UniqueNames(users) && users != []
    ensures UniqueNames(users[1..])
  {
    var rest := users[1..];
    forall a, b | 0 <= a < b < |rest| ensures rest[a].userName != rest[b].userName {
      assert rest[a] == users[a + 1] && rest[b] == users[b + 1];
    }
  }

  lemma RemoveKeepsHead(users: seq<User>, name: string)
    requires users != [] && users[0].userName != name
    ensures RemoveName(users, name) == [users[0]] + RemoveName(users[1..], name)
  {
  }

  /** Filtering out a name nobody has changes nothing. */
  lemma {:induction false} RemoveAbsentName(users: seq<User>, name: string)
    requires !HasName(users, name)
    ensures RemoveName(users, name) == users
  {
    if users != [] {
      assert users[0].userName != name;
      assert !HasName(users[1..], name) by {
        forall k | 0 <= k < |users[1..]| ensures users[1..][k].userName != name {
          assert users[1..][k] == users[k + 1];
        }
      }
      RemoveAbsentName(users[1..], name);
      assert [users[0]] + users[1..] == users;
    }
  }

  /** `users.map(existing => existing.userName === user.userName ? user : existing)`. */
  function ReplaceByName(users: seq<User>, user: User): (r: seq<User>)
    ensures |r| == |users|
    ensures forall i :: 0 <= i < |r| ==> r[i].userName == users[i].userName
    ensures UniqueNames(users) ==> UniqueNames(r)
  {
    seq(|users|, i requires 0 <= i < |users| =>
      if users[i].userName == user.userName then user else users[i])
  }

  /** With distinct names, the map replaces exactly the one user with that name. */
  lemma ReplaceUniqueName(users: seq<User>, i: nat, user: User)
    requires UniqueNames(users) && i < |users| && users[i].userName == user.userName
    ensures ReplaceByName(users, user) == users[i := user]
  {
    var r := ReplaceByName(users, user);
    forall k | 0 <= k < |users| ensures r[k] == users[i := user][k] {
      if k < i {
        assert users[k].userName != users[i].userName;
      } else if k > i {
        assert users[i].userName != users[k].userName;
      }
    }
  }

  /** `user.transactions.push(t)`. */
  function WithTransaction(user: User, t: Transaction): User {
    user.(transactions := user.transactions + [t])
  }
}
