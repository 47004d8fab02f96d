/** Splitting a total into shares, in integer minor units. */
module Splits {
  import opened Common

  type User = string

  datatype Split = Split(userId: User, amountMinorUnits: int)

  /** BigInt division truncates towards zero, and the remainder takes the sign of the dividend. */
  function TruncDiv(a: int, b: int): int
    requires b > 0
  {
    if a >= 0 then a / b else -((-a) / b)
  }

  function TruncMod(a: int, b: int): int
    requires b > 0
  {
    if a >= 0 then a % b else -((-a) % b)
  }

  function CalculateEqualSplits(totalMinorUnits: int, participantIds: seq<User>): seq<Split> {
    var count := |participantIds|;
    if count == 0 then []
    else
      var baseShare := TruncDiv(totalMinorUnits, count);
      var remainder := TruncMod(totalMinorUnits, count);
      seq(count, i requires 0 <= i < count => Split(participantIds[i], baseShare + if i < remainder then 1 else 0))
  }

  function SumSplitAmounts(splits: seq<Split>): int {
    if splits == [] then 0
    else SumSplitAmounts(splits[..|splits| - 1]) + splits[|splits| - 1].amountMinorUnits
  }

  function Users(splits: seq<Split>): seq<User> {
    seq(|splits|, i requires 0 <= i < |splits| => splits[i].userId)
  }

  lemma QuotientNonNegative(a: int, b: int)
    requires a >= 0 && b > 0
    ensures a / b >= 0
  {
    var q := a / b;
    assert a == b * q + a % b;
    assert q < 0 ==> b * q <= -b by {
      assert b * q == -b + b * (q + 1);
      assert q < 0 ==> b * (q + 1) <= 0;
    }
  }

  lemma DivisionIdentity(a: int, b: int)
    requires b > 0
    ensures b * TruncDiv(a, b) + TruncMod(a, b) == a
    ensures a >= 0 ==> 0 <= TruncMod(a, b) < b && TruncDiv(a, b) >= 0
    ensures a < 0 ==> -b < TruncMod(a, b) <= 0
  {
    QuotientNonNegative(Abs(a), b);
    if a < 0 {
      assert -a == b * ((-a) / b) + (-a) % b;
      assert b * (-((-a) / b)) == -(b * ((-a) / b));
    }
  }

  lemma {:induction false} PrefixSum(total: int, ids: seq<User>, k: nat)
    requires 0 < |ids| && k <= |ids|
    ensures
      var extra := TruncMod(total, |ids|);
      SumSplitAmounts(CalculateEqualSplits(total, ids)[..k]) == k * TruncDiv(total, |ids|) + Min(k, if extra > 0 then extra else 0)
    decreases k
  {
    var splits, base := CalculateEqualSplits(total, ids), TruncDiv(total, |ids|);
    if k > 0 {
      PrefixSum(total, ids, k - 1);
      assert splits[..k][..k - 1] == splits[..k - 1];
      assert k * base == (k - 1) * base + base;
    }
  }

  /** The shares add up to the total for every non-negative total and, beyond what the helper is called with, for exactly these others. */
  lemma SharesSumToTotal(total: int, ids: seq<User>)
    ensures SumSplitAmounts(CalculateEqualSplits(total, ids)) == total
            <==> if ids == [] then total == 0 else total >= 0 || TruncMod(total, |ids|) == 0
  {
    if ids != [] {
      var splits := CalculateEqualSplits(total, ids);
      DivisionIdentity(total, |ids|);
      PrefixSum(total, ids, |ids|);
      assert splits[..|ids|] == splits;
    }
  }

  /** A fair division: larger shares first, no two further apart than one unit. */
  ghost predicate Fair(splits: seq<Split>) {
    forall i, j | 0 <= i <= j < |splits| ::
      splits[j].amountMinorUnits <= splits[i].amountMinorUnits <= splits[j].amountMinorUnits + 1
  }

  lemma SharesAreFair(total: int, ids: seq<User>)
    ensures Users(CalculateEqualSplits(total, ids)) == ids && Fair(CalculateEqualSplits(total, ids))
    ensures total >= 0 ==> forall s <- CalculateEqualSplits(total, ids) :: s.amountMinorUnits >= 0
  {
    if ids != [] { DivisionIdentity(total, |ids|); }
  }

  /** How many of the first k shares exceed the last one. */
  function Extras(splits: seq<Split>, k: nat): nat
    requires k <= |splits|
  {
    if k == 0 then 0
    else Extras(splits, k - 1) + if splits[k - 1].amountMinorUnits > splits[|splits| - 1].amountMinorUnits then 1 else 0
  }

  /** The product as repeated addition. */
  function Times(k: nat, x: int): (p: int)
    ensures p == k * x
  {
    if k == 0 then 0
    else
      assert k * x == (k - 1) * x + x;
      Times(k - 1, x) + x
  }

  lemma {:induction false} FairPrefix(splits: seq<Split>, k: nat)
    requires splits != [] && Fair(splits) && k <= |splits|
    ensures
      var last := splits[|splits| - 1].amountMinorUnits;
      && SumSplitAmounts(splits[..k]) == Times(k, last) + Extras(splits, k)
      && Extras(splits, k) <= k
      && (forall i | 0 <= i < k :: splits[i].amountMinorUnits == last + if i < Extras(splits, k) then 1 else 0)
    decreases k
  {
    if k > 0 {
      var last := splits[|splits| - 1].amountMinorUnits;
      FairPrefix(splits, k - 1);
      assert splits[..k][..k - 1] == splits[..k - 1];
      assert last <= splits[k - 1].amountMinorUnits <= last + 1;
      if splits[k - 1].amountMinorUnits == last + 1 {
        assert forall i | 0 <= i < k - 1 :: splits[i].amountMinorUnits >= last + 1;
        assert k - 1 > 0 ==> splits[k - 2].amountMinorUnits == last + 1;
      }
    }
  }

  lemma ProductMonotone(c: nat, x: int, y: int)
    requires x <= y
    ensures c * x <= c * y
  {
    assert c * y - c * x == c * (y - x);
  }

  lemma QuotientUnique(total: int, count: nat, base: int, extra: nat)
    requires total >= 0 && 0 <= extra < count && total == count * base + extra
    ensures base == TruncDiv(total, count) && extra == TruncMod(total, count)
  {
    var q := total / count;
    assert total == count * q + total % count;
    if base < q {
      ProductMonotone(count, base + 1, q);
    } else if q < base {
      ProductMonotone(count, q + 1, base);
    }
  }

  /** Nothing else is a fair division: adding up to the total, in this order of participants and no further apart than a unit, leaves one answer. */
  lemma FairDivisionIsUnique(total: int, splits: seq<Split>)
    requires total >= 0 && splits != [] && Fair(splits) && SumSplitAmounts(splits) == total
    ensures splits == CalculateEqualSplits(total, Users(splits))
  {
    var n := |splits|;
    FairPrefix(splits, n);
    assert splits[..n] == splits;
    QuotientUnique(total, n, splits[n - 1].amountMinorUnits, Extras(splits, n));
  }

  /******* Sums do not depend on order *******/

  lemma {:induction false} SumAppend(first: seq<Split>, rest: seq<Split>)
    ensures SumSplitAmounts(first + rest) == SumSplitAmounts(first) + SumSplitAmounts(rest)
    decreases |rest|
  {
    if rest == [] {
      assert first + rest == first;
    } else {
      var init := rest[..|rest| - 1];
      assert (first + rest)[..|first + rest| - 1] == first + init;
      SumAppend(first, init);
    }
  }

  /** Taking one occurrence out of a list. */
  lemma TakeOut(splits: seq<Split>, s: Split) returns (before: seq<Split>, after: seq<Split>)
    requires s in splits
    ensures splits == before + [s] + after
    ensures multiset(splits) == multiset(before + after) + multiset{s}
  {
    var i :| 0 <= i < |splits| && splits[i] == s;
    before, after := splits[..i], splits[i + 1..];
    assert splits == before + [s] + after;
  }

  lemma SumInsert(before: seq<Split>, s: Split, after: seq<Split>)
    ensures SumSplitAmounts(before + [s] + after) == SumSplitAmounts(before + after) + s.amountMinorUnits
  {
    SumAppend(before, after);
    SumAppend(before + [s], after);
    assert (before + [s])[..|before|] == before;
  }

  lemma {:induction false} SumPermutation(a: seq<Split>, b: seq<Split>)
    requires multiset(a) == multiset(b)
    ensures SumSplitAmounts(a) == SumSplitAmounts(b)
    decreases |a|
  {
    if a == [] {
      assert multiset(b) == multiset{};
      assert |b| == |multiset(b)|;
    } else {
      var s, init := a[|a| - 1], a[..|a| - 1];
      assert a == init + [s];
      assert s in multiset(b);
      var before, after := TakeOut(b, s);
      assert multiset(init) == multiset(a) - multiset{s} == multiset(before + after);
      SumPermutation(init, before + after);
      SumInsert(before, s, after);
    }
  }

  /******* Lists of users without repetition *******/

  predicate Distinct(users: seq<User>) {
    forall i, j | 0 <= i < j < |users| :: users[i] != users[j]
  }

  function SetOf(users: seq<User>): set<User> { set u <- users }

  /** Comparing the size of the set with the length of the list finds repetitions. */
  lemma {:induction false} DistinctIffSetSize(users: seq<User>)
    ensures |SetOf(users)| <= |users|
    ensures Distinct(users) <==> |SetOf(users)| == |users|
    decreases |users|
  {
    if users != [] {
      var init, last := users[..|users| - 1], users[|users| - 1];
      DistinctIffSetSize(init);
      assert users == init + [last];
      assert SetOf(users) == SetOf(init) + {last};
      if last in init {
        var i :| 0 <= i < |init| && init[i] == last;
        assert users[i] == users[|users| - 1];
        assert SetOf(users) == SetOf(init);
      }
    }
  }

  lemma DistinctPermutation(a: seq<Split>, b: seq<Split>)
    requires multiset(a) == multiset(b)
    ensures Distinct(Users(a)) <==> Distinct(Users(b))
  {
    assert |a| == |multiset(a)| == |multiset(b)| == |b|;
    UsersSubset(a, b);
    UsersSubset(b, a);
    assert SetOf(Users(a)) == SetOf(Users(b));
    DistinctIffSetSize(Users(a));
    DistinctIffSetSize(Users(b));
  }

  lemma UsersSubset(a: seq<Split>, b: seq<Split>)
    requires multiset(a) == multiset(b)
    ensures SetOf(Users(a)) <= SetOf(Users(b))
  {
    forall u <- SetOf(Users(a)) ensures u in SetOf(Users(b)) {
      var i :| 0 <= i < |a| && Users(a)[i] == u;
      assert a[i] in multiset(b);
      var j :| 0 <= j < |b| && b[j] == a[i];
      assert Users(b)[j] == u;
    }
  }
}
