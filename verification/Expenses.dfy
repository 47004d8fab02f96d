/** Creating and patching an expense: validation, splits and the merge of a patch over the stored expense. */
module Expenses {
  import opened Common
  import opened Splits

  datatype SplitType = EQUAL | EXACT

  datatype Participant = Participant(userId: User, amountMinorUnits: Option<int>)

  datatype Expense = Expense(groupId: string, paidById: User, description: string, amountMinorUnits: int,
                             splitType: SplitType, splits: seq<Split>)

  datatype CreateInput = CreateInput(groupId: string, description: string, amountMinorUnits: int, payerId: User,
                                     splitType: SplitType, participants: seq<Participant>)

  datatype Patch = Patch(description: Option<string>, amountMinorUnits: Option<int>, payerId: Option<User>,
                         splitType: Option<SplitType>, participants: Option<seq<Participant>>)

  datatype Refusal = NotGroupMember | PayerNotGroupMember | DuplicateSplitUser | SplitUserNotGroupMember | SplitTotalMismatch

  datatype Result<+T> = Ok(value: T) | Refused(reason: Refusal)

  // What the request schemas admit: positive amounts and at least one participant.
  predicate ValidParticipants(ps: seq<Participant>) {
    ps != [] && forall p <- ps :: p.amountMinorUnits.Some? ==> p.amountMinorUnits.value > 0
  }

  predicate ValidCreate(input: CreateInput) { input.amountMinorUnits > 0 && ValidParticipants(input.participants) }

  predicate ValidPatch(patch: Patch) {
    && (patch.amountMinorUnits.Some? ==> patch.amountMinorUnits.value > 0)
    && (patch.participants.Some? ==> ValidParticipants(patch.participants.value))
  }

  function Ids(ps: seq<Participant>): seq<User> {
    seq(|ps|, i requires 0 <= i < |ps| => ps[i].userId)
  }

  /** The amounts as given; a missing one counts for nothing. */
  function AmountsOf(ps: seq<Participant>): seq<Split> {
    seq(|ps|, i requires 0 <= i < |ps| => Split(ps[i].userId, ps[i].amountMinorUnits.GetOr(0)))
  }

  function ReconcileSplits(splitType: SplitType, total: int, ps: seq<Participant>, memberIds: set<User>): Result<seq<Split>> {
    var ids := Ids(ps);
    if |SetOf(ids)| != |ids| then Refused(DuplicateSplitUser)
    else if exists id <- ids :: id !in memberIds then Refused(SplitUserNotGroupMember)
    else if splitType.EQUAL? then Ok(CalculateEqualSplits(total, ids))
    else if exists p <- ps :: p.amountMinorUnits.None? then Refused(SplitTotalMismatch)
    else
      var splits := AmountsOf(ps);
      if SumSplitAmounts(splits) != total then Refused(SplitTotalMismatch) else Ok(splits)
  }

  function CreateExpense(requesterId: User, memberIds: set<User>, input: CreateInput): Result<Expense> {
    if requesterId !in memberIds then Refused(NotGroupMember)
    else if input.payerId !in memberIds then Refused(PayerNotGroupMember)
    else
      match ReconcileSplits(input.splitType, input.amountMinorUnits, input.participants, memberIds)
      case Refused(reason) => Refused(reason)
      case Ok(splits) =>
        Ok(Expense(input.groupId, input.payerId, input.description, input.amountMinorUnits, input.splitType, splits))
  }

  /** The patch laid over the expense as it was read. */
  function UpdateExpense(requesterId: User, memberIds: set<User>, expense: Expense, patch: Patch): Result<Expense> {
    var total := patch.amountMinorUnits.GetOr(expense.amountMinorUnits);
    var payer := patch.payerId.GetOr(expense.paidById);
    var splitType := patch.splitType.GetOr(expense.splitType);
    var merged := (splits: seq<Split>) =>
      Expense(expense.groupId, payer, patch.description.GetOr(expense.description), total, splitType, splits);
    if requesterId !in memberIds then Refused(NotGroupMember)
    else if payer !in memberIds then Refused(PayerNotGroupMember)
    else if patch.participants.Some? then
      match ReconcileSplits(splitType, total, patch.participants.value, memberIds)
      case Refused(reason) => Refused(reason)
      case Ok(splits) => Ok(merged(splits))
    else if splitType.EXACT? then
      if SumSplitAmounts(expense.splits) != total then Refused(SplitTotalMismatch) else Ok(merged(expense.splits))
    else Ok(merged(CalculateEqualSplits(total, Users(expense.splits))))
  }

  /** No two shares are further apart than one minor unit. */
  predicate WithinOne(splits: seq<Split>) {
    forall s <- splits, t <- splits :: s.amountMinorUnits <= t.amountMinorUnits + 1
  }

  predicate SplitsSound(splitType: SplitType, total: int, splits: seq<Split>) {
    && splits != [] && Distinct(Users(splits))
    && (forall s <- splits :: s.amountMinorUnits >= 0)
    && SumSplitAmounts(splits) == total
    && (splitType.EQUAL? ==> WithinOne(splits))
  }

  predicate ExpenseSound(e: Expense) { SplitsSound(e.splitType, e.amountMinorUnits, e.splits) }

  lemma EqualSplitsSound(total: int, ids: seq<User>)
    requires total >= 0 && ids != [] && Distinct(ids)
    ensures SplitsSound(EQUAL, total, CalculateEqualSplits(total, ids))
  {
    SharesSumToTotal(total, ids);
    SharesAreFair(total, ids);
  }

  lemma IdsAmong(ps: seq<Participant>, memberIds: set<User>)
    ensures (forall id <- Ids(ps) :: id in memberIds) <==> forall p <- ps :: p.userId in memberIds
  {
    forall p <- ps ensures p.userId in Ids(ps) {
      var i :| 0 <= i < |ps| && ps[i] == p;
      assert Ids(ps)[i] == p.userId;
    }
    forall id <- Ids(ps) ensures exists p <- ps :: p.userId == id {
      var i :| 0 <= i < |ps| && Ids(ps)[i] == id;
      assert ps[i] in ps;
    }
  }

  /** Splits are stored exactly when the participants are distinct members and, for EXACT, every amount is given and they add up. */
  lemma ReconcileSplitsSound(splitType: SplitType, total: int, ps: seq<Participant>, memberIds: set<User>)
    requires total >= 0 && ValidParticipants(ps)
    ensures
      var r := ReconcileSplits(splitType, total, ps, memberIds);
      && (r.Ok? ==> SplitsSound(splitType, total, r.value) && Users(r.value) == Ids(ps))
      && (r.Ok? && splitType.EXACT? ==> forall i | 0 <= i < |ps| :: ps[i].amountMinorUnits == Some(r.value[i].amountMinorUnits))
      && (r.Ok? <==> Distinct(Ids(ps)) && (forall p <- ps :: p.userId in memberIds)
                     && (splitType.EXACT? ==> (forall p <- ps :: p.amountMinorUnits.Some?)
                                              && SumSplitAmounts(AmountsOf(ps)) == total))
  {
    var ids := Ids(ps);
    DistinctIffSetSize(ids);
    IdsAmong(ps, memberIds);
    if Distinct(ids) && splitType.EQUAL? {
      EqualSplitsSound(total, ids);
      SharesAreFair(total, ids);
    } else if Distinct(ids) {
      var splits := AmountsOf(ps);
      assert Users(splits) == ids;
      assert forall i | 0 <= i < |ps| :: ps[i] in ps;
    }
  }

  lemma CreateExpenseSound(requesterId: User, memberIds: set<User>, input: CreateInput)
    requires ValidCreate(input)
    ensures
      var r := CreateExpense(requesterId, memberIds, input);
      r.Ok? ==> ExpenseSound(r.value) && r.value.amountMinorUnits > 0
                && {requesterId, r.value.paidById} <= memberIds && forall s <- r.value.splits :: s.userId in memberIds
  {
    ReconcileSplitsSound(input.splitType, input.amountMinorUnits, input.participants, memberIds);
    var r := CreateExpense(requesterId, memberIds, input);
    if r.Ok? {
      var ids := Ids(input.participants);
      assert Users(r.value.splits) == ids;
      forall s <- r.value.splits ensures s.userId in memberIds {
        var i :| 0 <= i < |r.value.splits| && r.value.splits[i] == s;
        assert Users(r.value.splits)[i] == input.participants[i].userId;
      }
    }
  }

  /** Whatever sound expense the patch is laid over, the result is sound. */
  lemma UpdateExpenseSound(requesterId: User, memberIds: set<User>, expense: Expense, patch: Patch)
    requires ExpenseSound(expense) && expense.amountMinorUnits > 0 && ValidPatch(patch)
    ensures
      var r := UpdateExpense(requesterId, memberIds, expense, patch);
      r.Ok? ==> ExpenseSound(r.value) && r.value.amountMinorUnits > 0 && r.value.groupId == expense.groupId
                && (patch.participants.None? ==> Users(r.value.splits) == Users(expense.splits))
  {
    var total := patch.amountMinorUnits.GetOr(expense.amountMinorUnits);
    var splitType := patch.splitType.GetOr(expense.splitType);
    if patch.participants.Some? {
      ReconcileSplitsSound(splitType, total, patch.participants.value, memberIds);
    } else if splitType.EQUAL? {
      EqualSplitsSound(total, Users(expense.splits));
      SharesAreFair(total, Users(expense.splits));
    }
  }

  /** The same splits, in any order. */
  predicate Reordered(a: seq<Split>, b: seq<Split>) { multiset(a) == multiset(b) }

  /** The order in which the splits come back does not matter for soundness. */
  lemma ReorderedSound(e: Expense, splits: seq<Split>)
    requires ExpenseSound(e) && Reordered(splits, e.splits)
    ensures ExpenseSound(e.(splits := splits)) && |splits| == |e.splits|
  {
    SumPermutation(e.splits, splits);
    DistinctPermutation(e.splits, splits);
    assert forall s <- splits :: s in multiset(e.splits);
    assert |multiset(splits)| == |multiset(e.splits)| == |e.splits|;
  }

  /******* What a request asks for *******/

  /** The division of the total among these users in this order, as fair as whole units allow. */
  ghost predicate DividesFairly(total: int, users: seq<User>, splits: seq<Split>) {
    Users(splits) == users && Fair(splits) && (users != [] ==> SumSplitAmounts(splits) == total)
  }

  /** Everybody's own amount, or a fair division. */
  ghost predicate SharesAsked(splitType: SplitType, total: int, ps: seq<Participant>, splits: seq<Split>) {
    match splitType
    case EQUAL => DividesFairly(total, Ids(ps), splits)
    case EXACT =>
      |splits| == |ps| && forall i | 0 <= i < |ps| :: splits[i].userId == ps[i].userId && ps[i].amountMinorUnits == Some(splits[i].amountMinorUnits)
  }

  /** The sum of the amounts that are given. */
  function AmountsGiven(ps: seq<Participant>): int {
    if ps == [] then 0
    else
      var last := ps[|ps| - 1].amountMinorUnits;
      AmountsGiven(ps[..|ps| - 1]) + if last.Some? then last.value else 0
  }

  lemma {:induction false} AmountsAddUp(ps: seq<Participant>)
    ensures SumSplitAmounts(AmountsOf(ps)) == AmountsGiven(ps)
    decreases |ps|
  {
    if ps != [] {
      assert AmountsOf(ps)[..|ps| - 1] == AmountsOf(ps[..|ps| - 1]);
      AmountsAddUp(ps[..|ps| - 1]);
    }
  }

  /** The reason is the first of the checks on participants that fails. */
  predicate ParticipantsRefusedFor(reason: Refusal, splitType: SplitType, total: int, ps: seq<Participant>, memberIds: set<User>) {
    match reason
    case DuplicateSplitUser => !Distinct(Ids(ps))
    case SplitUserNotGroupMember => Distinct(Ids(ps)) && exists p <- ps :: p.userId !in memberIds
    case SplitTotalMismatch =>
      && Distinct(Ids(ps)) && (forall p <- ps :: p.userId in memberIds)
      && splitType.EXACT? && ((exists p <- ps :: p.amountMinorUnits.None?) || AmountsGiven(ps) != total)
    case _ => false
  }

  lemma ReconcileSplitsExact(splitType: SplitType, total: int, ps: seq<Participant>, memberIds: set<User>)
    requires total >= 0
    ensures
      var r := ReconcileSplits(splitType, total, ps, memberIds);
      && (r.Ok? ==> SharesAsked(splitType, total, ps, r.value))
      && forall reason :: r == Refused(reason) <==> ParticipantsRefusedFor(reason, splitType, total, ps, memberIds)
  {
    DistinctIffSetSize(Ids(ps));
    IdsAmong(ps, memberIds);
    AmountsAddUp(ps);
    SharesAreFair(total, Ids(ps));
    SharesSumToTotal(total, Ids(ps));
    assert forall i | 0 <= i < |ps| :: ps[i] in ps;
  }

  /** The row that the request asks for. */
  ghost predicate Created(input: CreateInput, e: Expense) {
    && e.groupId == input.groupId && e.paidById == input.payerId && e.description == input.description
    && e.amountMinorUnits == input.amountMinorUnits && e.splitType == input.splitType
    && SharesAsked(input.splitType, input.amountMinorUnits, input.participants, e.splits)
  }

  predicate CreateRefusedFor(reason: Refusal, requesterId: User, memberIds: set<User>, input: CreateInput) {
    match reason
    case NotGroupMember => requesterId !in memberIds
    case PayerNotGroupMember => requesterId in memberIds && input.payerId !in memberIds
    case _ =>
      && {requesterId, input.payerId} <= memberIds
      && ParticipantsRefusedFor(reason, input.splitType, input.amountMinorUnits, input.participants, memberIds)
  }

  /** A creation stores what was asked for, or is refused for the first failing check; it fails for nothing else. */
  lemma CreateExpenseExact(requesterId: User, memberIds: set<User>, input: CreateInput)
    requires ValidCreate(input)
    ensures
      var r := CreateExpense(requesterId, memberIds, input);
      && (r.Ok? ==> Created(input, r.value))
      && forall reason :: r == Refused(reason) <==> CreateRefusedFor(reason, requesterId, memberIds, input)
  {
    ReconcileSplitsExact(input.splitType, input.amountMinorUnits, input.participants, memberIds);
  }

  /** A named field is the patch's, any other stays as it was read. */
  predicate Takes<T(==)>(field: Option<T>, was: T, now: T) {
    match field
    case Some(value) => now == value
    case None => now == was
  }

  /** The row that the patch asks for, laid over the expense as it was read. */
  ghost predicate Patched(before: Expense, patch: Patch, e: Expense) {
    && e.groupId == before.groupId
    && Takes(patch.description, before.description, e.description)
    && Takes(patch.amountMinorUnits, before.amountMinorUnits, e.amountMinorUnits)
    && Takes(patch.payerId, before.paidById, e.paidById)
    && Takes(patch.splitType, before.splitType, e.splitType)
    && match patch.participants
       case Some(ps) => SharesAsked(e.splitType, e.amountMinorUnits, ps, e.splits)
       case None =>
         if e.splitType.EXACT? then e.splits == before.splits
         else DividesFairly(e.amountMinorUnits, Users(before.splits), e.splits)
  }

  predicate PatchRefusedFor(reason: Refusal, requesterId: User, memberIds: set<User>, before: Expense, patch: Patch) {
    var payer := patch.payerId.GetOr(before.paidById);
    var total := patch.amountMinorUnits.GetOr(before.amountMinorUnits);
    var splitType := patch.splitType.GetOr(before.splitType);
    match reason
    case NotGroupMember => requesterId !in memberIds
    case PayerNotGroupMember => requesterId in memberIds && payer !in memberIds
    case _ =>
      && {requesterId, payer} <= memberIds
      && match patch.participants
         case Some(ps) => ParticipantsRefusedFor(reason, splitType, total, ps, memberIds)
         case None => reason.SplitTotalMismatch? && splitType.EXACT? && SumSplitAmounts(before.splits) != total
  }

  /** A patch stores what it asks for, or is refused for the first failing check; it fails for nothing else. */
  lemma UpdateExpenseExact(requesterId: User, memberIds: set<User>, before: Expense, patch: Patch)
    requires ValidPatch(patch) && before.amountMinorUnits >= 0
    ensures
      var r := UpdateExpense(requesterId, memberIds, before, patch);
      && (r.Ok? ==> Patched(before, patch, r.value))
      && forall reason :: r == Refused(reason) <==> PatchRefusedFor(reason, requesterId, memberIds, before, patch)
  {
    var total := patch.amountMinorUnits.GetOr(before.amountMinorUnits);
    var splitType := patch.splitType.GetOr(before.splitType);
    match patch.participants
    case Some(ps) => ReconcileSplitsExact(splitType, total, ps, memberIds);
    case None =>
      SharesAreFair(total, Users(before.splits));
      SharesSumToTotal(total, Users(before.splits));
  }
}
