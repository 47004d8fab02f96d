/** The expense operations as an object over the expense table and the groups' memberships, one request at a time. */
module ExpenseService {
  import opened Common
  import opened Splits
  import opened Expenses

  type Id = string

  datatype Answer = Done(expense: Expense) | Missing | Denied(reason: Refusal)

  class Service {
    var rows: map<Id, Expense>
    var members: map<string, seq<User>>

    constructor (members: map<string, seq<User>>)
      ensures rows == map[] && this.members == members
    {
      rows, this.members := map[], members;
    }

    /** findGroupMemberIds: no rows for a group that does not exist. */
    function MembersOf(groupId: string): (ids: seq<User>)
      reads this
      ensures forall u :: u in ids <==> groupId in members && u in members[groupId]
    {
      if groupId in members then members[groupId] else []
    }

    /** The checks on participants, in their order, and the splits they lead to. */
    method ReconcileParticipants(splitType: SplitType, total: int, ps: seq<Participant>, memberIds: seq<User>)
      returns (r: Result<seq<Split>>)
      ensures r == ReconcileSplits(splitType, total, ps, SetOf(memberIds))
    {
      var ids := Ids(ps);
      if |SetOf(ids)| != |ids| { return Refused(DuplicateSplitUser); }
      for i := 0 to |ids|
        invariant forall k | 0 <= k < i :: ids[k] in SetOf(memberIds)
      {
        if ids[i] !in memberIds {
          assert ids[i] in ids && ids[i] !in SetOf(memberIds);
          return Refused(SplitUserNotGroupMember);
        }
      }
      if splitType.EQUAL? { return Ok(CalculateEqualSplits(total, ids)); }
      if exists p <- ps :: p.amountMinorUnits.None? { return Refused(SplitTotalMismatch); }
      var splits := AmountsOf(ps);
      if SumSplitAmounts(splits) != total { return Refused(SplitTotalMismatch); }
      return Ok(splits);
    }

    method Create(requesterId: User, input: CreateInput, id: Id) returns (answer: Answer)
      requires id !in rows && ValidCreate(input)
      modifies this`rows
      ensures input.groupId !in members ==> answer == Missing
      ensures input.groupId in members ==>
        && !answer.Missing?
        && (answer.Done? ==> Created(input, answer.expense) && ExpenseSound(answer.expense) && rows == old(rows)[id := answer.expense])
        && (forall reason :: answer == Denied(reason) <==> CreateRefusedFor(reason, requesterId, SetOf(members[input.groupId]), input))
      ensures !answer.Done? ==> rows == old(rows)
    {
      if input.groupId !in members { return Missing; }
      var memberIds := members[input.groupId];
      CreateExpenseSound(requesterId, SetOf(memberIds), input);
      CreateExpenseExact(requesterId, SetOf(memberIds), input);
      if requesterId !in memberIds { return Denied(NotGroupMember); }
      if input.payerId !in memberIds { return Denied(PayerNotGroupMember); }
      var splits := ReconcileParticipants(input.splitType, input.amountMinorUnits, input.participants, memberIds);
      if splits.Refused? { return Denied(splits.reason); }
      var e := Expense(input.groupId, input.payerId, input.description, input.amountMinorUnits, input.splitType, splits.value);
      rows := rows[id := e];
      return Done(e);
    }

    /** `read` is the stored expense's splits in the order in which the query returns them. */
    method Update(requesterId: User, id: Id, patch: Patch, read: seq<Split>) returns (answer: Answer)
      requires ValidPatch(patch) && (id in rows ==> Reordered(read, rows[id].splits))
      modifies this`rows
      ensures answer.Missing? <==> id !in old(rows)
      ensures id in old(rows) ==>
        match UpdateExpense(requesterId, SetOf(MembersOf(old(rows)[id].groupId)), old(rows)[id].(splits := read), patch)
        case Ok(e) => answer == Done(e) && rows == old(rows)[id := e]
        case Refused(reason) => answer == Denied(reason)
      ensures id in old(rows) && old(rows)[id].amountMinorUnits >= 0 ==>
        var before := old(rows)[id].(splits := read);
        && (answer.Done? ==> Patched(before, patch, answer.expense))
        && (forall reason :: answer == Denied(reason) <==> PatchRefusedFor(reason, requesterId, SetOf(MembersOf(before.groupId)), before, patch))
      ensures answer.Done? && ExpenseSound(old(rows)[id]) && old(rows)[id].amountMinorUnits > 0 ==> ExpenseSound(answer.expense)
      ensures !answer.Done? ==> rows == old(rows)
    {
      if id !in rows { return Missing; }
      var expense := rows[id].(splits := read);
      var memberIds := MembersOf(expense.groupId);
      if ExpenseSound(rows[id]) && expense.amountMinorUnits > 0 {
        ReorderedSound(rows[id], read);
        UpdateExpenseSound(requesterId, SetOf(memberIds), expense, patch);
      }
      if expense.amountMinorUnits >= 0 { UpdateExpenseExact(requesterId, SetOf(memberIds), expense, patch); }
      if requesterId !in memberIds { return Denied(NotGroupMember); }
      var total := patch.amountMinorUnits.GetOr(expense.amountMinorUnits);
      var payer := patch.payerId.GetOr(expense.paidById);
      var splitType := patch.splitType.GetOr(expense.splitType);
      if payer !in memberIds { return Denied(PayerNotGroupMember); }
      var splits := expense.splits;
      if patch.participants.Some? {
        var reconciled := ReconcileParticipants(splitType, total, patch.participants.value, memberIds);
        if reconciled.Refused? { return Denied(reconciled.reason); }
        splits := reconciled.value;
      } else if splitType.EXACT? {
        if SumSplitAmounts(splits) != total { return Denied(SplitTotalMismatch); }
      } else {
        splits := CalculateEqualSplits(total, Users(splits));
      }
      var e := Expense(expense.groupId, payer, patch.description.GetOr(expense.description), total, splitType, splits);
      rows := rows[id := e];
      return Done(e);
    }

    method Delete(requesterId: User, id: Id) returns (answer: Answer)
      modifies this`rows
      ensures answer.Missing? <==> id !in old(rows)
      ensures answer.Done? <==> id in old(rows) && requesterId in MembersOf(old(rows)[id].groupId)
      ensures answer.Done? ==> answer.expense == old(rows)[id]
      ensures answer.Denied? ==> answer.reason == NotGroupMember
      ensures rows == if answer.Done? then old(rows) - {id} else old(rows)
    {
      if id !in rows { return Missing; }
      var expense := rows[id];
      if requesterId !in MembersOf(expense.groupId) { return Denied(NotGroupMember); }
      rows := rows - {id};
      return Done(expense);
    }
  }
}
