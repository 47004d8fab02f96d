/** Net balances from the group's records: what each user paid, owes, sent and received. */
module Balances {
  import opened Common
  import opened Splits

  /** The parts of an expense and of a settlement that the balances read. */
  datatype ExpenseRow = ExpenseRow(paidById: User, amountMinorUnits: int, splits: seq<Split>)
  datatype SettlementRow = SettlementRow(payerId: User, payeeId: User, amountMinorUnits: int)

  type BalanceMap = map<User, int>

  function Credit(balances: BalanceMap, userId: User, amount: int): BalanceMap {
    balances[userId := Lookup(balances, userId, 0) + amount]
  }

  /** What a user owes within one list of splits. */
  function OwedIn(splits: seq<Split>, u: User): int {
    if splits == [] then 0
    else OwedIn(splits[..|splits| - 1], u) + if splits[|splits| - 1].userId == u then splits[|splits| - 1].amountMinorUnits else 0
  }

  function ShareOf(e: ExpenseRow, u: User): int {
    (if e.paidById == u then e.amountMinorUnits else 0) - OwedIn(e.splits, u)
  }

  function FlowOf(s: SettlementRow, u: User): int {
    (if s.payerId == u then s.amountMinorUnits else 0) - if s.payeeId == u then s.amountMinorUnits else 0
  }

  function Paid(es: seq<ExpenseRow>, u: User): int {
    if es == [] then 0
    else Paid(es[..|es| - 1], u) + if es[|es| - 1].paidById == u then es[|es| - 1].amountMinorUnits else 0
  }

  function Owed(es: seq<ExpenseRow>, u: User): int {
    if es == [] then 0 else Owed(es[..|es| - 1], u) + OwedIn(es[|es| - 1].splits, u)
  }

  function Sent(ss: seq<SettlementRow>, u: User): int {
    if ss == [] then 0
    else Sent(ss[..|ss| - 1], u) + if ss[|ss| - 1].payerId == u then ss[|ss| - 1].amountMinorUnits else 0
  }

  function Received(ss: seq<SettlementRow>, u: User): int {
    if ss == [] then 0
    else Received(ss[..|ss| - 1], u) + if ss[|ss| - 1].payeeId == u then ss[|ss| - 1].amountMinorUnits else 0
  }

  function Net(es: seq<ExpenseRow>, ss: seq<SettlementRow>, u: User): int {
    Paid(es, u) - Owed(es, u) + Sent(ss, u) - Received(ss, u)
  }

  /** By how much totals exceed their splits, over all expenses. */
  function Unsplit(es: seq<ExpenseRow>): int {
    if es == [] then 0
    else Unsplit(es[..|es| - 1]) + es[|es| - 1].amountMinorUnits - SumSplitAmounts(es[|es| - 1].splits)
  }

  ghost function TotalOf(balances: BalanceMap): int {
    Sum(balances.Keys, u => Lookup(balances, u, 0))
  }

  lemma CreditTotal(balances: BalanceMap, u: User, amount: int)
    ensures TotalOf(Credit(balances, u, amount)) == TotalOf(balances) + amount
  {
    var after := Credit(balances, u, amount);
    var f, g := (k: User) => Lookup(balances, k, 0), (k: User) => Lookup(after, k, 0);
    SumRemove(after.Keys, u, g);
    SumEqual(after.Keys - {u}, g, f);
    if u in balances {
      SumRemove(balances.Keys, u, f);
      assert after.Keys == balances.Keys;
    } else {
      assert after.Keys - {u} == balances.Keys;
    }
  }

  /******* The fold, one credit at a time *******/

  function DebitSplits(balances: BalanceMap, splits: seq<Split>): BalanceMap {
    if splits == [] then balances
    else
      var last := splits[|splits| - 1];
      Credit(DebitSplits(balances, splits[..|splits| - 1]), last.userId, -last.amountMinorUnits)
  }

  function AddExpense(balances: BalanceMap, e: ExpenseRow): BalanceMap {
    DebitSplits(Credit(balances, e.paidById, e.amountMinorUnits), e.splits)
  }

  function AddExpenses(balances: BalanceMap, es: seq<ExpenseRow>): BalanceMap {
    if es == [] then balances else AddExpense(AddExpenses(balances, es[..|es| - 1]), es[|es| - 1])
  }

  function AddSettlement(balances: BalanceMap, s: SettlementRow): BalanceMap {
    Credit(Credit(balances, s.payerId, s.amountMinorUnits), s.payeeId, -s.amountMinorUnits)
  }

  function AddSettlements(balances: BalanceMap, ss: seq<SettlementRow>): BalanceMap {
    if ss == [] then balances else AddSettlement(AddSettlements(balances, ss[..|ss| - 1]), ss[|ss| - 1])
  }

  lemma {:induction false} DebitSplitsEffect(balances: BalanceMap, splits: seq<Split>, u: User)
    ensures Lookup(DebitSplits(balances, splits), u, 0) == Lookup(balances, u, 0) - OwedIn(splits, u)
    ensures u in DebitSplits(balances, splits) <==> u in balances || exists s <- splits :: s.userId == u
    ensures TotalOf(DebitSplits(balances, splits)) == TotalOf(balances) - SumSplitAmounts(splits)
    decreases |splits|
  {
    if splits != [] {
      var init, last := splits[..|splits| - 1], splits[|splits| - 1];
      DebitSplitsEffect(balances, init, u);
      CreditTotal(DebitSplits(balances, init), last.userId, -last.amountMinorUnits);
      assert splits == init + [last];
    }
  }

  predicate Mentions(e: ExpenseRow, u: User) {
    u == e.paidById || exists s <- e.splits :: s.userId == u
  }

  lemma AddExpenseEffect(balances: BalanceMap, e: ExpenseRow, u: User)
    ensures Lookup(AddExpense(balances, e), u, 0) == Lookup(balances, u, 0) + ShareOf(e, u)
    ensures u in AddExpense(balances, e) <==> u in balances || Mentions(e, u)
    ensures TotalOf(AddExpense(balances, e)) == TotalOf(balances) + e.amountMinorUnits - SumSplitAmounts(e.splits)
  {
    CreditTotal(balances, e.paidById, e.amountMinorUnits);
    DebitSplitsEffect(Credit(balances, e.paidById, e.amountMinorUnits), e.splits, u);
  }

  lemma {:induction false} AddExpensesEffect(es: seq<ExpenseRow>, u: User)
    ensures Lookup(AddExpenses(map[], es), u, 0) == Paid(es, u) - Owed(es, u)
    ensures u in AddExpenses(map[], es) <==> exists e <- es :: Mentions(e, u)
    ensures TotalOf(AddExpenses(map[], es)) == Unsplit(es)
    decreases |es|
  {
    if es != [] {
      var init, last := es[..|es| - 1], es[|es| - 1];
      AddExpensesEffect(init, u);
      AddExpenseEffect(AddExpenses(map[], init), last, u);
      assert es == init + [last];
      assert forall e :: e in es <==> e in init || e == last;
    }
  }

  lemma {:induction false} AddSettlementsEffect(balances: BalanceMap, ss: seq<SettlementRow>, u: User)
    ensures Lookup(AddSettlements(balances, ss), u, 0) == Lookup(balances, u, 0) + Sent(ss, u) - Received(ss, u)
    ensures TotalOf(AddSettlements(balances, ss)) == TotalOf(balances)
    decreases |ss|
  {
    if ss != [] {
      var init, s := ss[..|ss| - 1], ss[|ss| - 1];
      AddSettlementsEffect(balances, init, u);
      var before := AddSettlements(balances, init);
      CreditTotal(before, s.payerId, s.amountMinorUnits);
      CreditTotal(Credit(before, s.payerId, s.amountMinorUnits), s.payeeId, -s.amountMinorUnits);
    }
  }

  lemma {:induction false} AddSettlementsKeys(balances: BalanceMap, ss: seq<SettlementRow>, u: User)
    ensures u in AddSettlements(balances, ss) <==> u in balances || exists s <- ss :: s.payerId == u || s.payeeId == u
    decreases |ss|
  {
    if ss != [] {
      var init, s := ss[..|ss| - 1], ss[|ss| - 1];
      AddSettlementsKeys(balances, init, u);
      assert ss == init + [s];
    }
  }

  predicate Mentioned(es: seq<ExpenseRow>, ss: seq<SettlementRow>, u: User) {
    (exists e <- es :: Mentions(e, u)) || (exists s <- ss :: s.payerId == u || s.payeeId == u)
  }

  /** The map holds exactly the users of the records, each with paid minus owed plus sent minus received. */
  ghost predicate IsNet(balances: BalanceMap, es: seq<ExpenseRow>, ss: seq<SettlementRow>) {
    forall u ::
      && (u in balances <==> Mentioned(es, ss, u))
      && Lookup(balances, u, 0) == Net(es, ss, u)
  }

  lemma FoldIsNet(es: seq<ExpenseRow>, ss: seq<SettlementRow>)
    ensures IsNet(AddSettlements(AddExpenses(map[], es), ss), es, ss)
    ensures TotalOf(AddSettlements(AddExpenses(map[], es), ss)) == Unsplit(es)
  {
    var expensesOnly := AddExpenses(map[], es);
    forall u
      ensures u in AddSettlements(expensesOnly, ss) <==> Mentioned(es, ss, u)
      ensures Lookup(AddSettlements(expensesOnly, ss), u, 0) == Net(es, ss, u)
    {
      AddExpensesEffect(es, u);
      AddSettlementsEffect(expensesOnly, ss, u);
      AddSettlementsKeys(expensesOnly, ss, u);
    }
    AddExpensesEffect(es, "");
    AddSettlementsEffect(expensesOnly, ss, "");
  }

  /** The fold over the lists as the queries return them, with the balances updated in place. */
  method CalculateBalances(expenses: seq<ExpenseRow>, settlements: seq<SettlementRow>) returns (balances: BalanceMap)
    ensures IsNet(balances, expenses, settlements)
    ensures TotalOf(balances) == Unsplit(expenses)
  {
    balances := map[];
    for i := 0 to |expenses|
      invariant balances == AddExpenses(map[], expenses[..i])
    {
      var expense := expenses[i];
      var splits := expense.splits;
      assert expenses[..i + 1][..i] == expenses[..i];
      balances := Credit(balances, expense.paidById, expense.amountMinorUnits);
      ghost var credited := balances;
      for j := 0 to |splits|
        invariant balances == DebitSplits(credited, splits[..j])
      {
        assert splits[..j + 1][..j] == splits[..j];
        balances := Credit(balances, splits[j].userId, -splits[j].amountMinorUnits);
      }
      assert splits[..|splits|] == splits;
    }
    assert expenses[..|expenses|] == expenses;
    ghost var expensesOnly := balances;
    for i := 0 to |settlements|
      invariant balances == AddSettlements(expensesOnly, settlements[..i])
    {
      var s := settlements[i];
      assert settlements[..i + 1][..i] == settlements[..i];
      balances := Credit(balances, s.payerId, s.amountMinorUnits);
      balances := Credit(balances, s.payeeId, -s.amountMinorUnits);
    }
    assert settlements[..|settlements|] == settlements;
    FoldIsNet(expenses, settlements);
  }

  /** Paying what one owes leaves one square; the receiver is owed that much less, and nobody else's balance moves. */
  lemma SettlingClears(es: seq<ExpenseRow>, ss: seq<SettlementRow>, debtor: User, creditor: User, u: User)
    requires debtor != creditor
    ensures
      var debt := -Net(es, ss, debtor);
      var after := ss + [SettlementRow(debtor, creditor, debt)];
      && Net(es, after, debtor) == 0
      && Net(es, after, creditor) == Net(es, ss, creditor) - debt
      && (u != debtor && u != creditor ==> Net(es, after, u) == Net(es, ss, u))
  {
    var after := ss + [SettlementRow(debtor, creditor, -Net(es, ss, debtor))];
    assert after[..|after| - 1] == ss;
  }

  /******* Zero sum, bounds and the members' view *******/

  lemma {:induction false} UnsplitZero(es: seq<ExpenseRow>)
    requires forall e <- es :: SumSplitAmounts(e.splits) == e.amountMinorUnits
    ensures Unsplit(es) == 0
    decreases |es|
  {
    if es != [] { UnsplitZero(es[..|es| - 1]); }
  }

  function ExpenseTotal(es: seq<ExpenseRow>): int {
    if es == [] then 0 else ExpenseTotal(es[..|es| - 1]) + es[|es| - 1].amountMinorUnits
  }

  function SettlementTotal(ss: seq<SettlementRow>): int {
    if ss == [] then 0 else SettlementTotal(ss[..|ss| - 1]) + ss[|ss| - 1].amountMinorUnits
  }

  lemma {:induction false} OwedInBounds(splits: seq<Split>, u: User)
    requires forall s <- splits :: s.amountMinorUnits >= 0
    ensures 0 <= OwedIn(splits, u) <= SumSplitAmounts(splits)
    decreases |splits|
  {
    if splits != [] { OwedInBounds(splits[..|splits| - 1], u); }
  }

  lemma {:induction false} ExpenseBounds(es: seq<ExpenseRow>, u: User)
    requires forall e <- es :: SumSplitAmounts(e.splits) == e.amountMinorUnits >= 0
    requires forall e <- es, s <- e.splits :: s.amountMinorUnits >= 0
    ensures 0 <= Paid(es, u) <= ExpenseTotal(es) && 0 <= Owed(es, u) <= ExpenseTotal(es)
    decreases |es|
  {
    if es != [] {
      ExpenseBounds(es[..|es| - 1], u);
      OwedInBounds(es[|es| - 1].splits, u);
    }
  }

  lemma {:induction false} SettlementBounds(ss: seq<SettlementRow>, u: User)
    requires forall s <- ss :: s.amountMinorUnits >= 0
    ensures 0 <= Sent(ss, u) <= SettlementTotal(ss) && 0 <= Received(ss, u) <= SettlementTotal(ss)
    decreases |ss|
  {
    if ss != [] { SettlementBounds(ss[..|ss| - 1], u); }
  }

  /** No balance exceeds the turnover of the group. */
  lemma BalanceBounded(balances: BalanceMap, es: seq<ExpenseRow>, ss: seq<SettlementRow>, u: User)
    requires IsNet(balances, es, ss)
    requires forall e <- es :: SumSplitAmounts(e.splits) == e.amountMinorUnits >= 0
    requires forall e <- es, s <- e.splits :: s.amountMinorUnits >= 0
    requires forall s <- ss :: s.amountMinorUnits >= 0
    ensures Abs(Lookup(balances, u, 0)) <= ExpenseTotal(es) + SettlementTotal(ss)
  {
    ExpenseBounds(es, u);
    SettlementBounds(ss, u);
  }

  function MembersTotal(balances: BalanceMap, members: seq<User>): int {
    if members == [] then 0
    else MembersTotal(balances, members[..|members| - 1]) + Lookup(balances, members[|members| - 1], 0)
  }

  lemma SetOfLast(users: seq<User>)
    requires users != [] && Distinct(users)
    ensures
      var init, last := users[..|users| - 1], users[|users| - 1];
      Distinct(init) && last in SetOf(users) && SetOf(users) - {last} == SetOf(init)
  {
    assert users == users[..|users| - 1] + [users[|users| - 1]];
  }

  lemma {:induction false} MembersTotalIsSum(balances: BalanceMap, members: seq<User>)
    requires Distinct(members)
    ensures MembersTotal(balances, members) == Sum(SetOf(members), u => Lookup(balances, u, 0))
    decreases |members|
  {
    if members != [] {
      var init, last := members[..|members| - 1], members[|members| - 1];
      SetOfLast(members);
      MembersTotalIsSum(balances, init);
      SumRemove(SetOf(members), last, (u: User) => Lookup(balances, u, 0));
    }
  }

  /** What the members are shown adds up to minus what former members still hold, and to zero when every user of the records is a member. */
  lemma MembersView(balances: BalanceMap, members: seq<User>)
    requires Distinct(members)
    requires TotalOf(balances) == 0
    ensures
      var former := balances.Keys - SetOf(members);
      && MembersTotal(balances, members) == -Sum(former, u => Lookup(balances, u, 0))
      && (former == {} ==> MembersTotal(balances, members) == 0)
  {
    var present := SetOf(members);
    var f := (u: User) => Lookup(balances, u, 0);
    MembersTotalIsSum(balances, members);
    var absent := present - balances.Keys;
    SumUnion(present * balances.Keys, balances.Keys - present, f);
    SumUnion(present * balances.Keys, absent, f);
    assert present * balances.Keys + (balances.Keys - present) == balances.Keys;
    assert present * balances.Keys + absent == present;
    SumConstant(absent, f, 0);
  }
}
