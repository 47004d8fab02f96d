/** What a patch does to the shares of an expense that comes back from the database with its splits in any order. */
module Repatching {
  import opened Common
  import opened Splits
  import opened Expenses
  import opened Ledger

  lemma {:induction false} SumAtLeast(splits: seq<Split>, x: int)
    requires forall s <- splits :: s.amountMinorUnits >= x
    ensures SumSplitAmounts(splits) >= Times(|splits|, x)
    ensures forall s <- splits :: SumSplitAmounts(splits) >= Times(|splits|, x) + s.amountMinorUnits - x
    decreases |splits|
  {
    if splits != [] {
      var init := splits[..|splits| - 1];
      assert splits == init + [splits[|splits| - 1]];
      assert forall s <- init :: s in splits;
      SumAtLeast(init, x);
    }
  }

  lemma {:induction false} SumAtMost(splits: seq<Split>, x: int)
    requires forall s <- splits :: s.amountMinorUnits <= x
    ensures SumSplitAmounts(splits) <= Times(|splits|, x)
    ensures forall s <- splits :: SumSplitAmounts(splits) <= Times(|splits|, x) + s.amountMinorUnits - x
    decreases |splits|
  {
    if splits != [] {
      var init := splits[..|splits| - 1];
      assert splits == init + [splits[|splits| - 1]];
      assert forall s <- init :: s in splits;
      SumAtMost(init, x);
    }
  }

  /** Shares within one unit that divide the total evenly are all the quotient. */
  lemma EvenShares(total: int, splits: seq<Split>, s: Split)
    requires SplitsSound(EQUAL, total, splits) && total > 0 && TruncMod(total, |splits|) == 0 && s in splits
    ensures s.amountMinorUnits == TruncDiv(total, |splits|)
  {
    var base := TruncDiv(total, |splits|);
    DivisionIdentity(total, |splits|);
    assert total == Times(|splits|, base);
    if s.amountMinorUnits > base { SumAtLeast(splits, base); }
    if s.amountMinorUnits < base { SumAtMost(splits, base); }
  }

  /** Otherwise some share is not the larger one. */
  lemma SmallerShare(total: int, splits: seq<Split>) returns (s: Split)
    requires SplitsSound(EQUAL, total, splits) && total > 0 && TruncMod(total, |splits|) != 0
    ensures s in splits && s.amountMinorUnits != TruncDiv(total, |splits|) + 1
  {
    var larger := TruncDiv(total, |splits|) + 1;
    DivisionIdentity(total, |splits|);
    assert Times(|splits|, larger) == Times(|splits|, larger - 1) + |splits|;
    if forall t <- splits :: t.amountMinorUnits == larger { SumAtLeast(splits, larger); }
    s :| s in splits && s.amountMinorUnits != larger;
  }

  /** Computing the shares again leaves them with their users. */
  predicate KeepsShares(total: int, splits: seq<Split>, read: seq<Split>) {
    Reordered(CalculateEqualSplits(total, Users(read)), splits)
  }

  lemma EvenSharesStay(total: int, splits: seq<Split>, read: seq<Split>)
    requires SplitsSound(EQUAL, total, splits) && total > 0 && TruncMod(total, |splits|) == 0 && Reordered(read, splits)
    ensures KeepsShares(total, splits, read)
  {
    assert |read| == |multiset(read)| == |multiset(splits)| == |splits|;
    var again := CalculateEqualSplits(total, Users(read));
    forall i | 0 <= i < |read| ensures again[i] == read[i] {
      assert read[i] in multiset(splits);
      EvenShares(total, splits, read[i]);
    }
    assert again == read;
  }

  /** The user with a smaller share, read first, is given the larger one. */
  lemma UnevenShareMoves(total: int, splits: seq<Split>) returns (read: seq<Split>)
    requires SplitsSound(EQUAL, total, splits) && total > 0 && TruncMod(total, |splits|) != 0
    ensures Reordered(read, splits) && !KeepsShares(total, splits, read)
  {
    var s := SmallerShare(total, splits);
    var before, after := TakeOut(splits, s);
    read := [s] + (before + after);
    assert |read| == |splits|;
    DivisionIdentity(total, |splits|);
    var again := CalculateEqualSplits(total, Users(read));
    assert again[0] == Split(s.userId, TruncDiv(total, |splits|) + 1) && again[0] in multiset(again);
    assert again[0] !in splits by {
      var i :| 0 <= i < |splits| && splits[i] == s;
      forall j | 0 <= j < |splits| ensures splits[j] != again[0] {
        assert Users(splits)[j] == splits[j].userId && Users(splits)[i] == s.userId;
      }
    }
  }

  /** Equal shares computed again stay with their users, in whatever order they are read, exactly when the total divides evenly. */
  lemma SharesStayIff(total: int, splits: seq<Split>)
    requires SplitsSound(EQUAL, total, splits) && total > 0
    ensures (forall read | Reordered(read, splits) :: KeepsShares(total, splits, read)) <==> TruncMod(total, |splits|) == 0
  {
    if TruncMod(total, |splits|) == 0 {
      forall read | Reordered(read, splits) ensures KeepsShares(total, splits, read) {
        EvenSharesStay(total, splits, read);
      }
    } else {
      var read := UnevenShareMoves(total, splits);
    }
  }

  /** With its splits read in this order, the update fails or stores something else than wanted, order of splits aside. */
  predicate Changes(requesterId: User, memberIds: set<User>, e: Expense, read: seq<Split>, patch: Patch, wanted: Expense) {
    var r := UpdateExpense(requesterId, memberIds, e.(splits := read), patch);
    !(r.Ok? && r.value.(splits := []) == wanted.(splits := []) && Reordered(r.value.splits, wanted.splits))
  }

  /** A patch that names neither amount, type nor participants leaves every share with its user, in whatever
      order the splits are read, exactly when they are EXACT or divide the total evenly. */
  lemma PatchWithoutMoneyIff(requesterId: User, memberIds: set<User>, e: Expense, patch: Patch)
    requires ExpenseSound(e) && e.amountMinorUnits > 0
    requires patch.amountMinorUnits.None? && patch.splitType.None? && patch.participants.None?
    requires requesterId in memberIds && patch.payerId.GetOr(e.paidById) in memberIds
    ensures
      var wanted := e.(paidById := patch.payerId.GetOr(e.paidById), description := patch.description.GetOr(e.description));
      (forall read | Reordered(read, e.splits) :: !Changes(requesterId, memberIds, e, read, patch, wanted))
      <==> e.splitType.EXACT? || TruncMod(e.amountMinorUnits, |e.splits|) == 0
  {
    var wanted := e.(paidById := patch.payerId.GetOr(e.paidById), description := patch.description.GetOr(e.description));
    if e.splitType.EXACT? {
      forall read | Reordered(read, e.splits) ensures !Changes(requesterId, memberIds, e, read, patch, wanted) {
        SumPermutation(read, e.splits);
      }
    } else {
      SharesStayIff(e.amountMinorUnits, e.splits);
      forall read | Reordered(read, e.splits)
        ensures Changes(requesterId, memberIds, e, read, patch, wanted) <==> !KeepsShares(e.amountMinorUnits, e.splits, read)
      {
      }
    }
  }

  lemma ParticipantsRepeat(requesterId: User, memberIds: set<User>, e: Expense, patch: Patch, read: seq<Split>)
    requires patch.participants.Some? && UpdateExpense(requesterId, memberIds, e, patch).Ok?
    ensures var once := UpdateExpense(requesterId, memberIds, e, patch).value; !Changes(requesterId, memberIds, once, read, patch, once)
  {
  }

  lemma ExactRepeats(requesterId: User, memberIds: set<User>, e: Expense, patch: Patch, read: seq<Split>)
    requires patch.participants.None? && UpdateExpense(requesterId, memberIds, e, patch).Ok?
    requires UpdateExpense(requesterId, memberIds, e, patch).value.splitType.EXACT?
    requires Reordered(read, UpdateExpense(requesterId, memberIds, e, patch).value.splits)
    ensures var once := UpdateExpense(requesterId, memberIds, e, patch).value; !Changes(requesterId, memberIds, once, read, patch, once)
  {
    SumPermutation(read, UpdateExpense(requesterId, memberIds, e, patch).value.splits);
  }

  lemma EqualRepeats(requesterId: User, memberIds: set<User>, e: Expense, patch: Patch, read: seq<Split>)
    requires patch.participants.None? && UpdateExpense(requesterId, memberIds, e, patch).Ok?
    requires UpdateExpense(requesterId, memberIds, e, patch).value.splitType.EQUAL?
    ensures
      var once := UpdateExpense(requesterId, memberIds, e, patch).value;
      Changes(requesterId, memberIds, once, read, patch, once) <==> !KeepsShares(once.amountMinorUnits, once.splits, read)
  {
  }

  /** Applying a patch a second time, to the expense read back in any order, changes nothing more exactly when
      the patch names participants, or the result is EXACT, or its total divides evenly. */
  lemma UpdateIsIdempotentIff(requesterId: User, memberIds: set<User>, e: Expense, patch: Patch)
    requires ExpenseSound(e) && e.amountMinorUnits > 0 && ValidPatch(patch) && UpdateExpense(requesterId, memberIds, e, patch).Ok?
    ensures
      var once := UpdateExpense(requesterId, memberIds, e, patch).value;
      (forall read | Reordered(read, once.splits) :: !Changes(requesterId, memberIds, once, read, patch, once))
      <==> patch.participants.Some? || once.splitType.EXACT? || TruncMod(once.amountMinorUnits, |once.splits|) == 0
  {
    var once := UpdateExpense(requesterId, memberIds, e, patch).value;
    UpdateExpenseSound(requesterId, memberIds, e, patch);
    if once.splitType.EQUAL? { SharesStayIff(once.amountMinorUnits, once.splits); }
    forall read | Reordered(read, once.splits)
      ensures Changes(requesterId, memberIds, once, read, patch, once)
              <==> patch.participants.None? && once.splitType.EQUAL? && !KeepsShares(once.amountMinorUnits, once.splits, read)
    {
      if patch.participants.Some? {
        ParticipantsRepeat(requesterId, memberIds, e, patch, read);
      } else if once.splitType.EXACT? {
        ExactRepeats(requesterId, memberIds, e, patch, read);
      } else {
        EqualRepeats(requesterId, memberIds, e, patch, read);
      }
    }
  }

  /******* A run in which a new description moves a unit *******/

  const MEMBERS := {"a", "b", "c"}
  const DINNER := CreateInput("g", "dinner", 10, "a", EQUAL, [Participant("a", None), Participant("b", None), Participant("c", None)])
  const RENAME := Patch(Some("lunch"), None, None, None, None)

  function Meal(description: string, splits: seq<Split>): Expense { Expense("g", "a", description, 10, EQUAL, splits) }

  const AS_CREATED := [Split("a", 4), Split("b", 3), Split("c", 3)]
  const AS_READ := [Split("b", 3), Split("a", 4), Split("c", 3)]
  const AS_RENAMED := [Split("b", 4), Split("a", 3), Split("c", 3)]

  lemma TenInThree(x: User, y: User, z: User)
    ensures CalculateEqualSplits(10, [x, y, z]) == [Split(x, 4), Split(y, 3), Split(z, 3)]
  {
    assert TruncDiv(10, 3) == 3 && TruncMod(10, 3) == 1;
  }

  lemma DinnerIsCreated()
    ensures CreateExpense("a", MEMBERS, DINNER) == Ok(Meal("dinner", AS_CREATED))
  {
    var ids := Ids(DINNER.participants);
    assert ids == ["a", "b", "c"];
    DistinctIffSetSize(ids);
    TenInThree("a", "b", "c");
  }

  lemma DinnerIsRenamed()
    ensures UpdateExpense("a", MEMBERS, Meal("dinner", AS_READ), RENAME) == Ok(Meal("lunch", AS_RENAMED))
  {
    assert Users(AS_READ) == ["b", "a", "c"];
    TenInThree("b", "a", "c");
  }

  const CREATE := Create("e", "a", MEMBERS, DINNER)
  const READ := Read(0, "e", AS_READ)
  const UPDATE := Update(0, "a", MEMBERS, RENAME)

  lemma CreateStores()
    ensures Enabled(EMPTY, CREATE) && Next(EMPTY, CREATE).expenses == map["e" := Meal("dinner", AS_CREATED)]
  {
    DinnerIsCreated();
  }

  lemma ReadSees(s: State)
    requires s.expenses == map["e" := Meal("dinner", AS_CREATED)]
    ensures Enabled(s, READ) && Next(s, READ).expenses == s.expenses
    ensures 0 in Next(s, READ).seen && Next(s, READ).seen[0] == Snapshot("e", Meal("dinner", AS_READ))
  {
    assert multiset(AS_READ) == multiset(AS_CREATED);
  }

  lemma RenameStores(s: State)
    requires s.expenses == map["e" := Meal("dinner", AS_CREATED)]
    requires 0 in s.seen && s.seen[0] == Snapshot("e", Meal("dinner", AS_READ))
    ensures Enabled(s, UPDATE) && Next(s, UPDATE).expenses == map["e" := Meal("lunch", AS_RENAMED)]
  {
    DinnerIsRenamed();
  }

  lemma RunOne(s: State, a: Action)
    requires Enabled(s, a)
    ensures CanRun(s, [a]) && Run(s, [a]) == Next(s, a)
  {
    assert [a][1..] == [];
    assert Run(Next(s, a), []) == Next(s, a);
  }

  lemma RunTwo(s: State, a: Action, b: Action)
    requires Enabled(s, a) && Enabled(Next(s, a), b)
    ensures CanRun(s, [a, b]) && Run(s, [a, b]) == Next(Next(s, a), b)
  {
    assert [a, b][1..] == [b];
    RunOne(Next(s, a), b);
  }

  /** A patch of the description alone takes a unit from one user's share and adds it to another's. */
  lemma RenameMovesAUnit()
    ensures UPDATE.patch == Patch(Some("lunch"), None, None, None, None)
    ensures CanRun(EMPTY, [CREATE, READ]) && Enabled(Run(EMPTY, [CREATE, READ]), UPDATE)
    ensures
      var s := Run(EMPTY, [CREATE, READ]);
      var t := Next(s, UPDATE);
      && "e" in s.expenses && Reordered(s.expenses["e"].splits, [Split("a", 4), Split("b", 3), Split("c", 3)])
      && "e" in t.expenses && Reordered(t.expenses["e"].splits, [Split("a", 3), Split("b", 4), Split("c", 3)])
  {
    CreateStores();
    ReadSees(Next(EMPTY, CREATE));
    RunTwo(EMPTY, CREATE, READ);
    RenameStores(Run(EMPTY, [CREATE, READ]));
  }
}
