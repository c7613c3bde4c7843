/**
 * The ledger queries of main.js: a user's balance and the income/outcome/
 * interest summary, all folds over the transaction list in insertion order.
 * Every fold here peels off the LAST transaction, so each one is the
 * JavaScript `reduce` from 0 read left to right.
 */
module Ledger {
  import opened Accounts

  /** What one transaction does to the balance: `deposit` and `loan` add
      the amount, every other type subtracts it. */
  function Signed(t: Transaction): int {
    if t.kind == Deposit || t.kind == Loan then t.amount else -t.amount
  }

  /** `calculateBalance`: the left fold of `Signed` from 0. */
  function Balance(ts: seq<Transaction>): int {
    if ts == [] then 0 else Balance(ts[..|ts| - 1]) + Signed(ts[|ts| - 1])
  }

  /** `reduce((total, t) => total + t.amount, 0)`: the unsigned sum. */
  function SumAmounts(ts: seq<Transaction>): int {
    if ts == [] then 0 else SumAmounts(ts[..|ts| - 1]) + ts[|ts| - 1].amount
  }

  predicate IsIncome(k: Kind) { k == Deposit || k == Loan }
  predicate IsOutcome(k: Kind) { k == Withdrawal }
  predicate IsLoan(k: Kind) { k == Loan }
  predicate IsDebit(k: Kind) { !IsIncome(k) }

  /** `transactions.filter(t => p(t.type))`. */
  function Filter(ts: seq<Transaction>, p: Kind -> bool): (r: seq<Transaction>)
    ensures |r| <= |ts|
    ensures forall i :: 0 <= i < |r| ==> p(r[i].kind)
  {
    if ts == [] then []
    else Filter(ts[..|ts| - 1], p) + (if p(ts[|ts| - 1].kind) then [ts[|ts| - 1]] else [])
  }

  /** The filter drops nothing that passes: every transaction whose kind
      satisfies `p` is in the result. */
  lemma {:induction false} FilterKeepsPassing(ts: seq<Transaction>, p: Kind -> bool)
    ensures forall i :: 0 <= i < |ts| && p(ts[i].kind) ==> ts[i] in Filter(ts, p)
  {
    if ts != [] {
      var init := ts[..|ts| - 1];
      FilterKeepsPassing(init, p);
      forall i | 0 <= i < |ts| && p(ts[i].kind)
        ensures ts[i] in Filter(ts, p)
      {
        if i < |ts| - 1 {
          assert ts[i] == init[i];
        }
      }
    }
  }

  function Incomes(ts: seq<Transaction>): int { SumAmounts(Filter(ts, IsIncome)) }
  function Outcomes(ts: seq<Transaction>): int { SumAmounts(Filter(ts, IsOutcome)) }

  /** The loan interest: each loan contributes `amount * rate / 100`. */
  function Interest(ts: seq<Transaction>, rate: real): real {
    LoanInterest(Filter(ts, IsLoan), rate)
  }

  function LoanInterest(loans: seq<Transaction>, rate: real): real {
    if loans == [] then 0.0
    else LoanInterest(loans[..|loans| - 1], rate) + Share(loans[|loans| - 1].amount, rate)
  }

  /** `amount * rate / 100`. */
  function Share(amount: int, rate: real): real {
    (amount as real) * rate / 100.0
  }

  /** The result of `getTransactionSummary`. */
  datatype Summary = Summary(incomes: int, outcomes: int, interest: real)

  /** `getTransactionSummary` of one transaction list: with the three types
      the code writes, incomes minus outcomes is the balance, and the
      interest is the loan total scaled by `rate / 100`. */
  function TransactionSummary(ts: seq<Transaction>, rate: real): (r: Summary)
    ensures r.incomes == Incomes(ts) && r.outcomes == Outcomes(ts)
    ensures KnownKinds(ts) ==> r.incomes - r.outcomes == Balance(ts)
    ensures r.interest == Share(SumAmounts(Filter(ts, IsLoan)), rate)
  {
    assert KnownKinds(ts) ==> Balance(ts) == Incomes(ts) - Outcomes(ts) by {
      if KnownKinds(ts) { BalanceIsIncomesMinusOutcomes(ts); }
    }
    InterestIsLoanShare(ts, rate);
    Summary(Incomes(ts), Outcomes(ts), Interest(ts, rate))
  }

  /** Every transaction carries one of the three types the code writes. */
  predicate KnownKinds(ts: seq<Transaction>) {
    forall i :: 0 <= i < |ts| ==> !ts[i].kind.Other?
  }

  // ---------------------------------------------------------------------

  lemma {:induction false} BalanceConcat(a: seq<Transaction>, b: seq<Transaction>)
    ensures Balance(a + b) == Balance(a) + Balance(b)
  {
    if b != [] {
      var ab := a + b;
      assert ab[..|ab| - 1] == a + b[..|b| - 1];
      BalanceConcat(a, b[..|b| - 1]);
    } else {
      assert a + b == a;
    }
  }

  /** Pushing a transaction moves the balance by its signed amount. */
  lemma BalancePush(ts: seq<Transaction>, t: Transaction)
    ensures Balance(ts + [t]) == Balance(ts) + Signed(t)
  {
    assert (ts + [t])[..|ts|] == ts;
  }

  /** The balance does not depend on the order of the transactions: any two
      lists holding the same transactions have the same balance. */
  lemma {:induction false} BalancePermutation(a: seq<Transaction>, b: seq<Transaction>)
    requires multiset(a) == multiset(b)
    ensures Balance(a) == Balance(b)
    decreases |a|
  {
    if a == [] {
      assert |b| == |multiset(b)| == 0;
    } else {
      var n := |a| - 1;
      assert a[n] in multiset(b);
      var k :| 0 <= k < |b| && b[k] == a[n];
      RemoveLast(a, b, k);
      BalancePermutation(a[..n], b[..k] + b[k + 1..]);
      BalanceWithout(b, k);
      BalancePush(a[..n], a[n]);
      assert a == a[..n] + [a[n]];
    }
  }

  /** Taking the last transaction of `a` and the same one at index `k` of
      `b` leaves lists with the same transactions. */
  lemma RemoveLast(a: seq<Transaction>, b: seq<Transaction>, k: nat)
    requires multiset(a) == multiset(b) && a != [] && k < |b| && b[k] == a[|a| - 1]
    ensures multiset(a[..|a| - 1]) == multiset(b[..k] + b[k + 1..])
  {
    var n := |a| - 1;
    var x := a[n];
    assert a == a[..n] + [x];
    assert b == b[..k] + [x] + b[k + 1..];
    assert multiset(a) == multiset(a[..n]) + multiset{x};
    assert multiset(b) == multiset(b[..k]) + multiset{x} + multiset(b[k + 1..]);
    assert multiset(b[..k] + b[k + 1..]) == multiset(b[..k]) + multiset(b[k + 1..]);
    assert multiset(b[..k] + b[k + 1..]) + multiset{x} == multiset(a[..n]) + multiset{x};
    var rest := b[..k] + b[k + 1..];
    assert multiset(rest) == multiset(rest) + multiset{x} - multiset{x};
    assert multiset(a[..n]) == multiset(a[..n]) + multiset{x} - multiset{x};
  }

  /** Taking out the transaction at index `k` removes its signed amount. */
  lemma BalanceWithout(b: seq<Transaction>, k: nat)
    requires k < |b|
    ensures Balance(b) == Balance(b[..k] + b[k + 1..]) + Signed(b[k])
  {
    SpliceAt(b, k);
    BalanceSplice(b[..k], b[k], b[k + 1..]);
  }

  lemma SpliceAt(b: seq<Transaction>, k: nat)
    requires k < |b|
    ensures b == (b[..k] + [b[k]]) + b[k + 1..]
  {
  }

  lemma BalanceSplice(front: seq<Transaction>, x: Transaction, back: seq<Transaction>)
    ensures Balance((front + [x]) + back) == Balance(front + back) + Signed(x)
  {
    BalanceConcat(front + [x], back);
    BalancePush(front, x);
    BalanceConcat(front, back);
  }

  lemma SumAmountsPush(ts: seq<Transaction>, t: Transaction)
    ensures SumAmounts(ts + [t]) == SumAmounts(ts) + t.amount
  {
    assert (ts + [t])[..|ts|] == ts;
  }

  lemma FilterPush(ts: seq<Transaction>, t: Transaction, p: Kind -> bool)
    ensures Filter(ts + [t], p) == Filter(ts, p) + (if p(t.kind) then [t] else [])
  {
    assert (ts + [t])[..|ts|] == ts;
  }

  /** Pushing a transaction adds its amount to the filtered sum when it passes the filter. */
  lemma FilteredSumPush(ts: seq<Transaction>, t: Transaction, p: Kind -> bool)
    ensures SumAmounts(Filter(ts + [t], p)) == SumAmounts(Filter(ts, p)) + (if p(t.kind) then t.amount else 0)
  {
    FilterPush(ts, t, p);
    if p(t.kind) {
      SumAmountsPush(Filter(ts, p), t);
    } else {
      assert Filter(ts, p) + [] == Filter(ts, p);
    }
  }

  /** Pushing a loan adds its share to the interest; any other type adds nothing. */
  lemma InterestPush(ts: seq<Transaction>, t: Transaction, rate: real)
    ensures Interest(ts + [t], rate)
         == Interest(ts, rate) + (if IsLoan(t.kind) then Share(t.amount, rate) else 0.0)
  {
    FilterPush(ts, t, IsLoan);
    var loans := Filter(ts, IsLoan);
    if IsLoan(t.kind) {
      assert (loans + [t])[..|loans|] == loans;
    } else {
      assert loans + [] == loans;
    }
  }

  /** Pushing a transaction adds its amount to the incomes or the outcomes
      and, for a loan, its share to the interest. */
  lemma SummaryPush(ts: seq<Transaction>, t: Transaction, rate: real)
    ensures Incomes(ts + [t]) == Incomes(ts) + (if IsIncome(t.kind) then t.amount else 0)
    ensures Outcomes(ts + [t]) == Outcomes(ts) + (if IsOutcome(t.kind) then t.amount else 0)
    ensures Interest(ts + [t], rate) == Interest(ts, rate) + (if IsLoan(t.kind) then Share(t.amount, rate) else 0.0)
  {
    FilteredSumPush(ts, t, IsIncome);
    FilteredSumPush(ts, t, IsOutcome);
    InterestPush(ts, t, rate);
  }

  /** When every transaction is a deposit, a loan or a withdrawal, the
      balance is the summary's incomes minus its outcomes. */
  lemma {:induction false} BalanceIsIncomesMinusOutcomes(ts: seq<Transaction>)
    requires KnownKinds(ts)
    ensures Balance(ts) == Incomes(ts) - Outcomes(ts)
  {
    if ts != [] {
      var n := |ts| - 1;
      var t := ts[n];
      assert ts == ts[..n] + [t];
      assert KnownKinds(ts[..n]);
      BalanceIsIncomesMinusOutcomes(ts[..n]);
      FilterPush(ts[..n], t, IsIncome);
      FilterPush(ts[..n], t, IsOutcome);
      SumAmountsPush(Filter(ts[..n], IsIncome), t);
      SumAmountsPush(Filter(ts[..n], IsOutcome), t);
      assert Filter(ts[..n], IsIncome) + [] == Filter(ts[..n], IsIncome);
      assert Filter(ts[..n], IsOutcome) + [] == Filter(ts[..n], IsOutcome);
    }
  }

  /** Without the three-type restriction, the balance is the incomes minus
      everything that is not an income. */
  lemma {:induction false} BalanceIsIncomesMinusDebits(ts: seq<Transaction>)
    ensures Balance(ts) == Incomes(ts) - SumAmounts(Filter(ts, IsDebit))
  {
    if ts != [] {
      var n := |ts| - 1;
      var t := ts[n];
      assert ts == ts[..n] + [t];
      BalanceIsIncomesMinusDebits(ts[..n]);
      FilteredSumPush(ts[..n], t, IsIncome);
      FilteredSumPush(ts[..n], t, IsDebit);
    }
  }

  /** The unsigned sum of src/main.js counts every non-income amount with
      the opposite sign: it exceeds the signed balance by twice the debits. */
  lemma {:induction false} SumAmountsVersusBalance(ts: seq<Transaction>)
    ensures SumAmounts(ts) == Balance(ts) + 2 * SumAmounts(Filter(ts, IsDebit))
  {
    if ts != [] {
      var n := |ts| - 1;
      var t := ts[n];
      assert ts == ts[..n] + [t];
      SumAmountsVersusBalance(ts[..n]);
      FilterPush(ts[..n], t, IsDebit);
      SumAmountsPush(Filter(ts[..n], IsDebit), t);
      assert Filter(ts[..n], IsDebit) + [] == Filter(ts[..n], IsDebit);
    }
  }

  /** The interest is the loan total scaled by `rate / 100`. */
  lemma {:induction false} InterestIsLoanShare(ts: seq<Transaction>, rate: real)
    ensures Interest(ts, rate) == Share(SumAmounts(Filter(ts, IsLoan)), rate)
  {
    LoanInterestIsShare(Filter(ts, IsLoan), rate);
  }

  lemma {:induction false} LoanInterestIsShare(loans: seq<Transaction>, rate: real)
    ensures LoanInterest(loans, rate) == Share(SumAmounts(loans), rate)
  {
    if loans != [] {
      var n := |loans| - 1;
      LoanInterestIsShare(loans[..n], rate);
      ShareAdds(SumAmounts(loans[..n]), loans[n].amount, rate);
    }
  }

  lemma ShareAdds(a: int, b: int, rate: real)
    ensures Share(a + b, rate) == Share(a, rate) + Share(b, rate)
  {
    assert ((a + b) as real) * rate == (a as real) * rate + (b as real) * rate;
  }

  /** The sum of every stored user's balance. */
  function TotalBalance(users: seq<User>): int {
    if users == [] then 0 else Balance(users[0].transactions) + TotalBalance(users[1..])
  }

  /** Replacing one user changes the total by the difference of that user's
      balances and nothing else. */
  lemma {:induction false} TotalBalanceUpdate(users: seq<User>, k: nat, u: User)
    requires k < |users|
    ensures TotalBalance(users[k := u])
         == TotalBalance(users) - Balance(users[k].transactions) + Balance(u.transactions)
  {
    if k > 0 {
      assert users[k := u][1..] == users[1..][k - 1 := u];
      TotalBalanceUpdate(users[1..], k - 1, u);
    } else {
      assert users[0 := u][1..] == users[1..];
    }
  }
}
