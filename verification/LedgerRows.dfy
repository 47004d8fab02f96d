/** Which rows the ledger's tables hold: what each accepted write stores, and that nothing else changes them. */
module LedgerRows {
  import opened Common
  import opened Splits
  import opened Balances
  import opened Expenses
  import opened Ledger

  /** The action is an accepted write of this expense. */
  ghost predicate Writes(s: State, a: Action, id: Id) {
    match a
    case Create(new', requesterId, memberIds, input) =>
      new' == id && forall reason :: !CreateRefusedFor(reason, requesterId, memberIds, input)
    case Update(r, requesterId, memberIds, patch) =>
      && r in s.seen && s.seen[r].id == id && id in s.expenses
      && forall reason :: !PatchRefusedFor(reason, requesterId, memberIds, s.seen[r].expense, patch)
    case Delete(gone) => gone == id && id in s.expenses
    case _ => false
  }

  /** What the write asks of the table. */
  ghost predicate Written(s: State, a: Action, id: Id, expenses: map<Id, Expense>) {
    match a
    case Create(_, _, _, input) => id in expenses && Created(input, expenses[id])
    case Update(r, _, _, patch) => id in expenses && r in s.seen && Patched(s.seen[r].expense, patch, expenses[id])
    case _ => id !in expenses
  }

  predicate SameRow<T(==)>(id: Id, before: map<Id, T>, after: map<Id, T>) {
    (id in after <==> id in before) && (id in before ==> after[id] == before[id])
  }

  /** One step: an expense changes by an accepted write of it, and only as that asks for; a settlement is added, and none changes. */
  lemma RowsChange(s: State, a: Action, id: Id)
    requires Sound(s) && Enabled(s, a)
    ensures
      var t := Next(s, a);
      && (if Writes(s, a, id) then Written(s, a, id, t.expenses) else SameRow(id, s.expenses, t.expenses))
      && (if a.Settle? && a.id == id then id in t.settlements && t.settlements[id] == a.settlement else SameRow(id, s.settlements, t.settlements))
      && (a.Read? ==> t.seen == s.seen[a.r := Snapshot(a.id, s.expenses[a.id].(splits := a.splits))])
      && (!a.Read? ==> t.seen == s.seen)
  {
    match a
    case Create(_, requesterId, memberIds, input) => CreateExpenseExact(requesterId, memberIds, input);
    case Update(r, requesterId, memberIds, patch) => UpdateExpenseExact(requesterId, memberIds, s.seen[r].expense, patch);
    case _ =>
  }

  datatype Write = Write(state: State, action: Action)

  /** The last accepted write of the expense in the run, with the state it was made in. */
  ghost function LastWrite(s: State, run: seq<Action>, id: Id): Option<Write>
    decreases |run|
  {
    if run == [] then None
    else
      var later := LastWrite(Next(s, run[0]), run[1..], id);
      if later.Some? then later else if Writes(s, run[0], id) then Some(Write(s, run[0])) else None
  }

  lemma {:induction false} RowsFollowWrites(s: State, run: seq<Action>, id: Id)
    requires Sound(s) && CanRun(s, run)
    ensures
      var t := Run(s, run);
      match LastWrite(s, run, id)
      case None => SameRow(id, s.expenses, t.expenses)
      case Some(w) => Written(w.state, w.action, id, t.expenses)
    decreases |run|
  {
    if run != [] {
      RowsChange(s, run[0], id);
      NextSound(s, run[0]);
      RowsFollowWrites(Next(s, run[0]), run[1..], id);
    }
  }

  /** In every run: an expense is stored as its last accepted write asked for, is missing when that was its deletion
      or there was none. */
  lemma ExpensesAreAsLastWritten(run: seq<Action>, id: Id)
    requires CanRun(EMPTY, run)
    ensures
      var t := Run(EMPTY, run);
      match LastWrite(EMPTY, run, id)
      case None => id !in t.expenses
      case Some(w) => Written(w.state, w.action, id, t.expenses)
  {
    RowsFollowWrites(EMPTY, run, id);
  }

  lemma {:induction false} SettlementsFollow(s: State, run: seq<Action>, id: Id, settlement: SettlementRow)
    requires Sound(s) && CanRun(s, run)
    ensures
      var t := Run(s, run);
      && (id in t.settlements && t.settlements[id] == settlement
          <==> (id in s.settlements && s.settlements[id] == settlement) || Settle(id, settlement) in run)
    decreases |run|
  {
    if run != [] {
      RowsChange(s, run[0], id);
      NextSound(s, run[0]);
      assert run == [run[0]] + run[1..];
      SettlementsFollow(Next(s, run[0]), run[1..], id, settlement);
      if id in s.settlements { NotSettledAgain(s, run, id); }
    }
  }

  /** An id in use is not given to another settlement. */
  lemma {:induction false} NotSettledAgain(s: State, run: seq<Action>, id: Id)
    requires Sound(s) && CanRun(s, run) && id in s.settlements
    ensures forall a <- run :: !(a.Settle? && a.id == id)
    decreases |run|
  {
    if run != [] {
      RowsChange(s, run[0], id);
      NextSound(s, run[0]);
      NotSettledAgain(Next(s, run[0]), run[1..], id);
      forall a <- run ensures !(a.Settle? && a.id == id) { assert a == run[0] || a in run[1..]; }
    }
  }

  /** In every run the settlements stored are the ones that were made, each under its own id, whatever happens to expenses. */
  lemma SettlementsAreAsMade(run: seq<Action>, id: Id, settlement: SettlementRow)
    requires CanRun(EMPTY, run)
    ensures id in Run(EMPTY, run).settlements && Run(EMPTY, run).settlements[id] == settlement <==> Settle(id, settlement) in run
  {
    SettlementsFollow(EMPTY, run, id, settlement);
  }
}
