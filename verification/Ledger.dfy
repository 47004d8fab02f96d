/**
 The group's ledger as a state machine: expenses are created, patched from a possibly stale read, and
 deleted; settlements are added. Beside the tables runs a balance book that is updated on every commit.
 */
module Ledger {
  import opened Common
  import opened Splits
  import opened Balances
  import opened Expenses

  type Id = string

  datatype Snapshot = Snapshot(id: Id, expense: Expense)

  datatype State = State(expenses: map<Id, Expense>, settlements: map<Id, SettlementRow>,
                         seen: map<nat, Snapshot>, book: BalanceMap)

  datatype Action =
    | Create(id: Id, requesterId: User, memberIds: set<User>, input: CreateInput)
    | Read(r: nat, id: Id, splits: seq<Split>)  // the splits in the order the query returns them
    | Update(r: nat, requesterId: User, memberIds: set<User>, patch: Patch)
    | Delete(id: Id)
    | Settle(id: Id, settlement: SettlementRow)

  ghost predicate Enabled(s: State, a: Action) {
    match a
    case Create(id, _, _, input) => id !in s.expenses && ValidCreate(input)
    case Read(_, id, splits) => id in s.expenses && Reordered(splits, s.expenses[id].splits)
    case Update(r, _, _, patch) => r in s.seen && ValidPatch(patch)
    case Delete(id) => id in s.expenses
    case Settle(id, settlement) => id !in s.settlements && settlement.amountMinorUnits > 0 && settlement.payerId != settlement.payeeId
  }

  function RowOf(e: Expense): ExpenseRow { ExpenseRow(e.paidById, e.amountMinorUnits, e.splits) }

  function CreditSplits(balances: BalanceMap, splits: seq<Split>): BalanceMap {
    if splits == [] then balances
    else
      var last := splits[|splits| - 1];
      Credit(CreditSplits(balances, splits[..|splits| - 1]), last.userId, last.amountMinorUnits)
  }

  /** Undo the effect of a stored expense. */
  function Withdraw(book: BalanceMap, e: ExpenseRow): BalanceMap {
    CreditSplits(Credit(book, e.paidById, -e.amountMinorUnits), e.splits)
  }

  function Next(s: State, a: Action): State {
    match a
    case Create(id, requesterId, memberIds, input) =>
      (match CreateExpense(requesterId, memberIds, input)
       case Refused(_) => s
       case Ok(e) => s.(expenses := s.expenses[id := e], book := AddExpense(s.book, RowOf(e))))
    case Read(r, id, splits) =>
      if id in s.expenses then s.(seen := s.seen[r := Snapshot(id, s.expenses[id].(splits := splits))]) else s
    case Update(r, requesterId, memberIds, patch) =>
      if r !in s.seen || s.seen[r].id !in s.expenses then s  // the row is gone: the update fails
      else
        (match UpdateExpense(requesterId, memberIds, s.seen[r].expense, patch)
         case Refused(_) => s
         case Ok(e) =>
           var id := s.seen[r].id;
           s.(expenses := s.expenses[id := e],
              book := AddExpense(Withdraw(s.book, RowOf(s.expenses[id])), RowOf(e))))
    case Delete(id) =>
      if id in s.expenses then s.(expenses := s.expenses - {id}, book := Withdraw(s.book, RowOf(s.expenses[id]))) else s
    case Settle(id, settlement) =>
      s.(settlements := s.settlements[id := settlement], book := AddSettlement(s.book, settlement))
  }

  const EMPTY := State(map[], map[], map[], map[])

  ghost predicate CanRun(s: State, run: seq<Action>)
    decreases |run|
  {
    run != [] ==> Enabled(s, run[0]) && CanRun(Next(s, run[0]), run[1..])
  }

  function Run(s: State, run: seq<Action>): State
    decreases |run|
  {
    if run == [] then s else Run(Next(s, run[0]), run[1..])
  }

  /******* Every stored expense is sound *******/

  predicate Stored(e: Expense) { ExpenseSound(e) && e.amountMinorUnits > 0 }

  ghost predicate Sound(s: State) {
    && (forall id <- s.expenses :: Stored(s.expenses[id]))
    && (forall r <- s.seen :: Stored(s.seen[r].expense))
    && (forall id <- s.settlements :: s.settlements[id].amountMinorUnits > 0)
  }

  lemma UpdateSound(s: State, a: Action)
    requires Sound(s) && a.Update? && Enabled(s, a)
    ensures Sound(Next(s, a))
  {
    UpdateExpenseSound(a.requesterId, a.memberIds, s.seen[a.r].expense, a.patch);
  }

  lemma NextSound(s: State, a: Action)
    requires Sound(s) && Enabled(s, a)
    ensures Sound(Next(s, a))
  {
    match a
    case Create(_, requesterId, memberIds, input) => CreateExpenseSound(requesterId, memberIds, input);
    case Read(_, id, splits) => ReorderedSound(s.expenses[id], splits);
    case Update(_, _, _, _) => UpdateSound(s, a);
    case _ =>
  }

  lemma {:induction false} RunSound(s: State, run: seq<Action>)
    requires Sound(s) && CanRun(s, run)
    ensures Sound(Run(s, run))
    decreases |run|
  {
    if run != [] {
      NextSound(s, run[0]);
      RunSound(Next(s, run[0]), run[1..]);
    }
  }

  /******* The book agrees with the tables *******/

  ghost function ExpenseSide(expenses: map<Id, Expense>, u: User): int {
    Sum(expenses.Keys, id => if id in expenses then ShareOf(RowOf(expenses[id]), u) else 0)
  }

  ghost function SettlementSide(settlements: map<Id, SettlementRow>, u: User): int {
    Sum(settlements.Keys, id => if id in settlements then FlowOf(settlements[id], u) else 0)
  }

  lemma ExpenseSideRemove(expenses: map<Id, Expense>, id: Id, u: User)
    requires id in expenses
    ensures ExpenseSide(expenses, u) == ExpenseSide(expenses - {id}, u) + ShareOf(RowOf(expenses[id]), u)
  {
    var rest := expenses - {id};
    var f := (k: Id) => if k in expenses then ShareOf(RowOf(expenses[k]), u) else 0;
    var g := (k: Id) => if k in rest then ShareOf(RowOf(rest[k]), u) else 0;
    SumRemove(expenses.Keys, id, f);
    assert rest.Keys == expenses.Keys - {id};
    SumEqual(rest.Keys, f, g);
  }

  lemma ExpenseSidePut(expenses: map<Id, Expense>, id: Id, e: Expense, u: User)
    ensures ExpenseSide(expenses[id := e], u)
            == ExpenseSide(expenses, u) + ShareOf(RowOf(e), u) - if id in expenses then ShareOf(RowOf(expenses[id]), u) else 0
  {
    ExpenseSideRemove(expenses[id := e], id, u);
    assert expenses[id := e] - {id} == expenses - {id};
    if id in expenses {
      ExpenseSideRemove(expenses, id, u);
    } else {
      assert expenses - {id} == expenses;
    }
  }

  lemma SettlementSideRemove(settlements: map<Id, SettlementRow>, id: Id, u: User)
    requires id in settlements
    ensures SettlementSide(settlements, u) == SettlementSide(settlements - {id}, u) + FlowOf(settlements[id], u)
  {
    var rest := settlements - {id};
    var f := (k: Id) => if k in settlements then FlowOf(settlements[k], u) else 0;
    var g := (k: Id) => if k in rest then FlowOf(rest[k], u) else 0;
    SumRemove(settlements.Keys, id, f);
    assert rest.Keys == settlements.Keys - {id};
    SumEqual(rest.Keys, f, g);
  }

  lemma {:induction false} CreditSplitsEffect(balances: BalanceMap, splits: seq<Split>, u: User)
    ensures Lookup(CreditSplits(balances, splits), u, 0) == Lookup(balances, u, 0) + OwedIn(splits, u)
    decreases |splits|
  {
    if splits != [] { CreditSplitsEffect(balances, splits[..|splits| - 1], u); }
  }

  lemma WithdrawEffect(book: BalanceMap, e: ExpenseRow, u: User)
    ensures Lookup(Withdraw(book, e), u, 0) == Lookup(book, u, 0) - ShareOf(e, u)
  {
    CreditSplitsEffect(Credit(book, e.paidById, -e.amountMinorUnits), e.splits, u);
  }

  ghost predicate BookAgrees(s: State, u: User) {
    Lookup(s.book, u, 0) == ExpenseSide(s.expenses, u) + SettlementSide(s.settlements, u)
  }

  lemma NextBookAgrees(s: State, a: Action, u: User)
    requires BookAgrees(s, u) && Enabled(s, a)
    ensures BookAgrees(Next(s, a), u)
  {
    match a
    case Create(id, requesterId, memberIds, input) =>
      var r := CreateExpense(requesterId, memberIds, input);
      if r.Ok? {
        ExpenseSidePut(s.expenses, id, r.value, u);
        AddExpenseEffect(s.book, RowOf(r.value), u);
      }
    case Update(r, requesterId, memberIds, patch) =>
      var result := UpdateExpense(requesterId, memberIds, s.seen[r].expense, patch);
      if s.seen[r].id in s.expenses && result.Ok? {
        var old' := RowOf(s.expenses[s.seen[r].id]);
        ExpenseSidePut(s.expenses, s.seen[r].id, result.value, u);
        WithdrawEffect(s.book, old', u);
        AddExpenseEffect(Withdraw(s.book, old'), RowOf(result.value), u);
      }
    case Delete(id) =>
      ExpenseSideRemove(s.expenses, id, u);
      WithdrawEffect(s.book, RowOf(s.expenses[id]), u);
    case Settle(id, settlement) =>
      SettlementSideRemove(s.settlements[id := settlement], id, u);
      assert s.settlements[id := settlement] - {id} == s.settlements;
    case _ =>
  }

  lemma {:induction false} RunBookAgrees(s: State, run: seq<Action>, u: User)
    requires BookAgrees(s, u) && CanRun(s, run)
    ensures BookAgrees(Run(s, run), u)
    decreases |run|
  {
    if run != [] {
      NextBookAgrees(s, run[0], u);
      RunBookAgrees(Next(s, run[0]), run[1..], u);
    }
  }

  /******* Unordered queries *******/

  predicate DistinctIds(ids: seq<Id>) {
    forall i, j | 0 <= i < j < |ids| :: ids[i] != ids[j]
  }

  function IdSet(ids: seq<Id>): set<Id> { set id <- ids }

  /** The rows are the table's expenses, each once, in some order, each with its splits in some order. */
  ghost predicate ListsExpenses(rows: seq<ExpenseRow>, ids: seq<Id>, expenses: map<Id, Expense>) {
    && |rows| == |ids| && DistinctIds(ids) && IdSet(ids) == expenses.Keys
    && forall i | 0 <= i < |rows| ::
         ids[i] in expenses
         && rows[i].(splits := []) == RowOf(expenses[ids[i]]).(splits := [])
         && multiset(rows[i].splits) == multiset(expenses[ids[i]].splits)
  }

  ghost predicate ListsSettlements(rows: seq<SettlementRow>, ids: seq<Id>, settlements: map<Id, SettlementRow>) {
    && |rows| == |ids| && DistinctIds(ids) && IdSet(ids) == settlements.Keys
    && forall i | 0 <= i < |rows| :: ids[i] in settlements && rows[i] == settlements[ids[i]]
  }

  lemma {:induction false} OwedAppend(first: seq<Split>, rest: seq<Split>, u: User)
    ensures OwedIn(first + rest, u) == OwedIn(first, u) + OwedIn(rest, u)
    decreases |rest|
  {
    if rest == [] {
      assert first + rest == first;
    } else {
      var init := rest[..|rest| - 1];
      assert (first + rest)[..|first + rest| - 1] == first + init;
      OwedAppend(first, init, u);
    }
  }

  lemma OwedInsert(before: seq<Split>, s: Split, after: seq<Split>, u: User)
    ensures OwedIn(before + [s] + after, u) == OwedIn(before + after, u) + OwedIn([s], u)
  {
    OwedAppend(before, after, u);
    OwedAppend(before + [s], after, u);
    OwedAppend(before, [s], u);
  }

  lemma OwedLast(splits: seq<Split>, u: User)
    requires splits != []
    ensures OwedIn(splits, u) == OwedIn(splits[..|splits| - 1], u) + OwedIn([splits[|splits| - 1]], u)
  {
    var last := splits[|splits| - 1];
    assert [last][..0] == [];
  }

  lemma {:induction false} OwedPermutation(a: seq<Split>, b: seq<Split>, u: User)
    requires multiset(a) == multiset(b)
    ensures OwedIn(a, u) == OwedIn(b, u)
    decreases |a|
  {
    if a == [] {
      assert |b| == |multiset(b)| == |multiset(a)|;
    } else {
      var s, init := a[|a| - 1], a[..|a| - 1];
      assert a == init + [s];
      assert s in multiset(b);
      var before, after := TakeOut(b, s);
      assert multiset(init) == multiset(a) - multiset{s} == multiset(before + after);
      OwedPermutation(init, before + after, u);
      OwedInsert(before, s, after, u);
      OwedLast(a, u);
    }
  }

  lemma DropLast(ids: seq<Id>)
    requires ids != [] && DistinctIds(ids)
    ensures
      var init, last := ids[..|ids| - 1], ids[|ids| - 1];
      DistinctIds(init) && last !in init && IdSet(init) == IdSet(ids) - {last}
  {
    assert ids == ids[..|ids| - 1] + [ids[|ids| - 1]];
  }

  /** The last listed row is a stored expense, and the rows before it list the rest of the table. */
  lemma ListsInit(rows: seq<ExpenseRow>, ids: seq<Id>, expenses: map<Id, Expense>, u: User)
    requires ListsExpenses(rows, ids, expenses) && rows != []
    ensures
      var n := |rows| - 1;
      && ids[n] in expenses && ListsExpenses(rows[..n], ids[..n], expenses - {ids[n]})
      && ShareOf(rows[n], u) == ShareOf(RowOf(expenses[ids[n]]), u)
  {
    var n := |rows| - 1;
    DropLast(ids);
    var row, stored := rows[n], RowOf(expenses[ids[n]]);
    assert row.paidById == row.(splits := []).paidById == stored.paidById;
    assert row.amountMinorUnits == row.(splits := []).amountMinorUnits == stored.amountMinorUnits;
    OwedPermutation(row.splits, stored.splits, u);
  }

  lemma {:induction false} ListedExpenses(rows: seq<ExpenseRow>, ids: seq<Id>, expenses: map<Id, Expense>, u: User)
    requires ListsExpenses(rows, ids, expenses)
    ensures Paid(rows, u) - Owed(rows, u) == ExpenseSide(expenses, u)
    decreases |rows|
  {
    if rows != [] {
      var n := |rows| - 1;
      ListsInit(rows, ids, expenses, u);
      ListedExpenses(rows[..n], ids[..n], expenses - {ids[n]}, u);
      ExpenseSideRemove(expenses, ids[n], u);
    }
  }

  lemma ListsSettlementsInit(rows: seq<SettlementRow>, ids: seq<Id>, settlements: map<Id, SettlementRow>)
    requires ListsSettlements(rows, ids, settlements) && rows != []
    ensures
      var n := |rows| - 1;
      && ids[n] in settlements && rows[n] == settlements[ids[n]]
      && ListsSettlements(rows[..n], ids[..n], settlements - {ids[n]})
  {
    DropLast(ids);
  }

  lemma {:induction false} ListedSettlements(rows: seq<SettlementRow>, ids: seq<Id>, settlements: map<Id, SettlementRow>, u: User)
    requires ListsSettlements(rows, ids, settlements)
    ensures Sent(rows, u) - Received(rows, u) == SettlementSide(settlements, u)
    decreases |rows|
  {
    if rows != [] {
      var n := |rows| - 1;
      ListsSettlementsInit(rows, ids, settlements);
      ListedSettlements(rows[..n], ids[..n], settlements - {ids[n]}, u);
      SettlementSideRemove(settlements, ids[n], u);
    }
  }

  /******* Main results *******/

  /** Every stored expense, in every run, also when updates commit from stale reads. */
  lemma StoredExpensesAreSound(run: seq<Action>, id: Id)
    requires CanRun(EMPTY, run) && id in Run(EMPTY, run).expenses
    ensures
      var e := Run(EMPTY, run).expenses[id];
      && e.splits != [] && Distinct(Users(e.splits)) && (forall s <- e.splits :: s.amountMinorUnits >= 0)
      && SumSplitAmounts(e.splits) == e.amountMinorUnits > 0
      && (e.splitType.EQUAL? ==> WithinOne(e.splits))
  {
    RunSound(EMPTY, run);
  }

  /** However the queries order their rows, the fold gives each user the balance that the book has kept all along. */
  lemma FoldAgreesWithBook(run: seq<Action>, es: seq<ExpenseRow>, ids: seq<Id>, ss: seq<SettlementRow>, sids: seq<Id>,
                           balances: BalanceMap, u: User)
    requires CanRun(EMPTY, run)
    requires ListsExpenses(es, ids, Run(EMPTY, run).expenses) && ListsSettlements(ss, sids, Run(EMPTY, run).settlements)
    requires IsNet(balances, es, ss)
    ensures Lookup(balances, u, 0) == Net(es, ss, u) == Lookup(Run(EMPTY, run).book, u, 0)
  {
    RunBookAgrees(EMPTY, run, u);
    ListedExpenses(es, ids, Run(EMPTY, run).expenses, u);
    ListedSettlements(ss, sids, Run(EMPTY, run).settlements, u);
  }

  lemma ListedSound(s: State, es: seq<ExpenseRow>, ids: seq<Id>)
    requires Sound(s) && ListsExpenses(es, ids, s.expenses)
    ensures forall e <- es :: SumSplitAmounts(e.splits) == e.amountMinorUnits >= 0 && forall t <- e.splits :: t.amountMinorUnits >= 0
  {
    forall e <- es
      ensures SumSplitAmounts(e.splits) == e.amountMinorUnits >= 0 && forall t <- e.splits :: t.amountMinorUnits >= 0
    {
      var i :| 0 <= i < |es| && es[i] == e;
      ReorderedSound(s.expenses[ids[i]], e.splits);
    }
  }

  /** The balances add up to zero, none exceeds the turnover, and the members' view is short by what former
      members hold, for expenses and settlements queried at any two moments, or even of any two ledgers. */
  lemma BalancesAddUp(run: seq<Action>, es: seq<ExpenseRow>, ids: seq<Id>, other: seq<Action>, ss: seq<SettlementRow>, sids: seq<Id>,
                      balances: BalanceMap, members: seq<User>, u: User)
    requires CanRun(EMPTY, run) && ListsExpenses(es, ids, Run(EMPTY, run).expenses)
    requires CanRun(EMPTY, other) && ListsSettlements(ss, sids, Run(EMPTY, other).settlements)
    requires IsNet(balances, es, ss) && TotalOf(balances) == Unsplit(es) && Distinct(members)
    ensures TotalOf(balances) == 0
    ensures Abs(Lookup(balances, u, 0)) <= ExpenseTotal(es) + SettlementTotal(ss)
    ensures MembersTotal(balances, members) == -Sum(balances.Keys - SetOf(members), k => Lookup(balances, k, 0))
    ensures balances.Keys <= SetOf(members) ==> MembersTotal(balances, members) == 0
  {
    RunSound(EMPTY, run);
    RunSound(EMPTY, other);
    ListedSound(Run(EMPTY, run), es, ids);
    UnsplitZero(es);
    BalanceBounded(balances, es, ss, u);
    MembersView(balances, members);
    assert balances.Keys <= SetOf(members) ==> balances.Keys - SetOf(members) == {};
  }

  /** How far the totals of the rows and of the splits belonging to them have drifted apart, when the splits are
      read from a later table in which some expenses may be gone. */
  function Drift(ids: seq<Id>, first: map<Id, Expense>, second: map<Id, Expense>): int
    requires forall id <- ids :: id in first
  {
    if ids == [] then 0
    else
      var id := ids[|ids| - 1];
      assert forall i <- ids[..|ids| - 1] :: i in ids;
      Drift(ids[..|ids| - 1], first, second) + first[id].amountMinorUnits - (if id in second then second[id].amountMinorUnits else 0)
  }

  /** Rows from one table, each with its splits, in some order, from another. */
  ghost predicate ListsMixed(rows: seq<ExpenseRow>, ids: seq<Id>, first: map<Id, Expense>, second: map<Id, Expense>) {
    && |rows| == |ids|
    && forall i | 0 <= i < |rows| ::
         && ids[i] in first
         && rows[i].(splits := []) == RowOf(first[ids[i]]).(splits := [])
         && Reordered(rows[i].splits, if ids[i] in second then second[ids[i]].splits else [])
  }

  lemma {:induction false} MixedUnsplit(rows: seq<ExpenseRow>, ids: seq<Id>, first: map<Id, Expense>, second: map<Id, Expense>)
    requires ListsMixed(rows, ids, first, second) && forall id <- second :: ExpenseSound(second[id])
    ensures Unsplit(rows) == Drift(ids, first, second)
    decreases |rows|
  {
    if rows != [] {
      var n := |rows| - 1;
      MixedUnsplit(rows[..n], ids[..n], first, second);
      assert rows[n].amountMinorUnits == rows[n].(splits := []).amountMinorUnits;
      SumPermutation(rows[n].splits, if ids[n] in second then second[ids[n]].splits else []);
    }
  }

  /** With splits queried after their expenses, the balances sum to what the updates and deletions in between
      have changed of the listed totals: to zero exactly when these changes cancel. */
  lemma MixedBalances(run: seq<Action>, later: seq<Action>, es: seq<ExpenseRow>, ids: seq<Id>, ss: seq<SettlementRow>)
    requires CanRun(EMPTY, run) && CanRun(Run(EMPTY, run), later)
    requires ListsMixed(es, ids, Run(EMPTY, run).expenses, Run(Run(EMPTY, run), later).expenses)
    ensures forall id <- ids :: id in Run(EMPTY, run).expenses
    ensures TotalOf(AddSettlements(AddExpenses(map[], es), ss))
            == Drift(ids, Run(EMPTY, run).expenses, Run(Run(EMPTY, run), later).expenses)
  {
    RunSound(EMPTY, run);
    RunSound(Run(EMPTY, run), later);
    FoldIsNet(es, ss);
    MixedUnsplit(es, ids, Run(EMPTY, run).expenses, Run(Run(EMPTY, run), later).expenses);
  }

  datatype BalancesAnswer = GroupNotFound | NotMember | Shown(amounts: seq<int>)

  /** getGroupBalances: the computed balance of each member, in the members' order. */
  method GetGroupBalances(requesterId: User, group: Option<seq<User>>, es: seq<ExpenseRow>, ss: seq<SettlementRow>)
    returns (result: BalancesAnswer)
    ensures result.GroupNotFound? <==> group.None?
    ensures result.NotMember? <==> group.Some? && requesterId !in group.value
    ensures result.Shown? ==>
      && |result.amounts| == |group.value|
      && forall i | 0 <= i < |group.value| :: result.amounts[i] == Net(es, ss, group.value[i])
  {
    if group.None? { return GroupNotFound; }
    var members := group.value;
    if requesterId !in members { return NotMember; }
    var balances := CalculateBalances(es, ss);
    var amounts: seq<int> := [];
    for i := 0 to |members|
      invariant |amounts| == i && forall k | 0 <= k < i :: amounts[k] == Net(es, ss, members[k])
    {
      amounts := amounts + [Lookup(balances, members[i], 0)];
    }
    return Shown(amounts);
  }
}
