/** The group-expense form of the browser client: the list of selected users and
    the map of custom splits, the handlers that change them, and the submit
    handler that validates the form and builds one expense per participant.
    Amounts are integers (paise); the two-decimal rounding of the equal share is
    the function `roundShare`, left uninterpreted. */
module GroupExpense {
  import opened Text

  datatype Option<T> = None | Some(value: T)

  datatype SplitMethod = Equal | Custom

  /** One expense sent to the server for one participant. */
  datatype GroupEntry = GroupEntry(
    userId: int, category: string, description: string, amount: int,
    date: string, isGroupExpense: bool, groupExpenseId: int)

  /** One line of the split notification: who owes what. */
  datatype SplitShare = SplitShare(userId: int, amount: int)

  datatype SubmitOutcome =
    | Rejected(error: string)
    | Built(expenses: seq<GroupEntry>, splitWith: seq<SplitShare>)

  const FillAllFieldsError: string := "Please fill in all fields"
  const SelectUserError: string := "Please select at least one user to split with"
  const SplitsExceedError: string := "The sum of splits exceeds the total amount"
  const GroupSuffix: string := " (Group expense)"

  function Elems(s: seq<int>): set<int>
  {
    set u | u in s
  }

  /** The list without `x` (`filter((id) => id !== x)`). */
  function Remove(s: seq<int>, x: int): (r: seq<int>)
    ensures Elems(r) == Elems(s) - {x}
    ensures NoDuplicates(s) ==> NoDuplicates(r)
    ensures |r| <= |s|
  {
    if s == [] then []
    else
      var rest := Remove(s[1..], x);
      assert Elems(s) == {s[0]} + Elems(s[1..]);
      if s[0] == x then rest
      else
        assert NoDuplicates(s) ==> s[0] !in Elems(rest);
        assert Elems([s[0]] + rest) == {s[0]} + Elems(rest);
        [s[0]] + rest
  }

  /** Removing keeps the other users in their selection order. */
  lemma {:induction false} RemoveKeepsOrder(a: seq<int>, b: seq<int>, x: int)
    ensures Remove(a + b, x) == Remove(a, x) + Remove(b, x)
  {
    if a == [] {
      assert a + b == b;
    } else {
      assert (a + b)[0] == a[0];
      assert (a + b)[1..] == a[1..] + b;
      RemoveKeepsOrder(a[1..], b, x);
    }
  }

  lemma {:induction false} RemoveAbsent(s: seq<int>, x: int)
    requires x !in s
    ensures Remove(s, x) == s
  {
    if s != [] {
      assert s == [s[0]] + s[1..];
      RemoveAbsent(s[1..], x);
    }
  }

  /** Selecting an unselected user and then deselecting them restores the
      selection and the custom splits. */
  lemma ToggleTwiceRestores(selected: seq<int>, splits: map<int, int>, u: int)
    requires u !in selected && splits.Keys <= Elems(selected)
    ensures Remove(selected + [u], u) == selected
    ensures splits[u := 0] - {u} == splits
    ensures splits - {u} == splits
  {
    RemoveKeepsOrder(selected, [u], u);
    RemoveAbsent(selected, u);
    assert Remove([u], u) == [];
    assert selected + [] == selected;
    assert u !in splits;
  }

  // ---------------------------------------------------------------------------
  // Sums over the custom splits

  /** The sum of the values of a map (`Object.values(m).reduce(+, 0)`), taking
      the keys in an arbitrary order. */
  ghost function SumValues<K>(m: map<K, int>): int
    decreases |m|
  {
    if m == map[] then 0
    else
      var k :| k in m;
      assert |m - {k}| < |m| by { assert (m - {k}).Keys == m.Keys - {k}; }
      m[k] + SumValues(m - {k})
  }

  /** Some key of a non-empty map. */
  ghost function PickKey<K>(m: map<K, int>): (k: K)
    requires m != map[]
    ensures k in m
  {
    var k :| k in m; k
  }

  /** The sum does not depend on which key is taken first. */
  lemma {:induction false} SumValuesRemove<K>(m: map<K, int>, k: K)
    requires k in m
    ensures SumValues(m) == m[k] + SumValues(m - {k})
    decreases |m|
  {
    var j :| j in m && SumValues(m) == m[j] + SumValues(m - {j});
    if j != k {
      assert (m - {j}).Keys == m.Keys - {j};
      assert (m - {k}).Keys == m.Keys - {k};
      SumValuesRemove(m - {j}, k);
      SumValuesRemove(m - {k}, j);
      assert m - {j} - {k} == m - {k} - {j};
    }
  }

  /** The sum of `m[u]` over the users `us`, in order. */
  function SumOver(us: seq<int>, m: map<int, int>): int
    requires forall i :: 0 <= i < |us| ==> us[i] in m
  {
    if us == [] then 0 else m[us[0]] + SumOver(us[1..], m)
  }

  lemma {:induction false} SumOverFrame(us: seq<int>, m: map<int, int>, m': map<int, int>)
    requires forall i :: 0 <= i < |us| ==> us[i] in m && us[i] in m' && m[us[i]] == m'[us[i]]
    ensures SumOver(us, m) == SumOver(us, m')
  {
    if us != [] {
      SumOverFrame(us[1..], m, m');
    }
  }

  /** When the keys of the splits are exactly the selected users, summing the
      map's values is summing over the selection. */
  lemma {:induction false} SumOverSelection(us: seq<int>, m: map<int, int>)
    requires NoDuplicates(us)
    requires m.Keys == Elems(us)
    ensures SumOver(us, m) == SumValues(m)
  {
    if us == [] {
      assert m.Keys == {};
      assert m == map[];
    } else {
      var u := us[0];
      ElemsTail(us);
      var m' := m - {u};
      assert m'.Keys == Elems(us[1..]);
      SumOverSelection(us[1..], m');
      SumOverFrame(us[1..], m, m');
      SumValuesRemove(m, u);
    }
  }

  /** Without its head, a duplicate-free list holds the other users, still once each. */
  lemma ElemsTail(us: seq<int>)
    requires us != [] && NoDuplicates(us)
    ensures Elems(us[1..]) == Elems(us) - {us[0]}
    ensures NoDuplicates(us[1..])
  {
    assert us == [us[0]] + us[1..];
    assert us[0] !in us[1..];
  }

  function TotalAmount(es: seq<GroupEntry>): int
  {
    if es == [] then 0 else es[0].amount + TotalAmount(es[1..])
  }

  /** Equal amounts add up to the count times the amount. */
  lemma {:induction false} TotalOfEqualShares(es: seq<GroupEntry>, share: int)
    requires forall k :: 0 <= k < |es| ==> es[k].amount == share
    ensures TotalAmount(es) == |es| * share
  {
    if es != [] {
      TotalOfEqualShares(es[1..], share);
    }
  }

  lemma {:induction false} TotalOfShares(es: seq<GroupEntry>, us: seq<int>, m: map<int, int>)
    requires |es| == |us|
    requires forall i :: 0 <= i < |us| ==> us[i] in m
    requires forall i :: 0 <= i < |us| ==> es[i].amount == m[us[i]]
    ensures TotalAmount(es) == SumOver(us, m)
  {
    if es != [] {
      TotalOfShares(es[1..], us[1..], m);
    }
  }

  // ---------------------------------------------------------------------------
  // The form

  class GroupExpenseForm {
    var category: string
    var description: string
    /** The amount field; None while it is empty. */
    var amount: Option<int>
    var date: string
    var selectedUsers: seq<int>
    var splitMethod: SplitMethod
    var customSplits: map<int, int>
    /** `parseFloat((total / parts).toFixed(2))`, in paise. */
    const roundShare: (int, int) -> int

    /** No user is selected twice, only selected users have a custom split, and
        in custom mode every selected user has one. */
    ghost predicate Valid()
      reads this
    {
      && NoDuplicates(selectedUsers)
      && customSplits.Keys <= Elems(selectedUsers)
      && (splitMethod == Custom ==> customSplits.Keys == Elems(selectedUsers))
    }

    /** An empty form dated `today`, equal split, nobody selected. */
    constructor(today: string, roundShare: (int, int) -> int)
      ensures Valid()
      ensures category == "" && description == "" && amount == None && date == today
      ensures selectedUsers == [] && splitMethod == Equal && customSplits == map[]
      ensures this.roundShare == roundShare
    {
      category, description, amount, date := "", "", None, today;
      selectedUsers, splitMethod, customSplits := [], Equal, map[];
      this.roundShare := roundShare;
    }

    /** The text inputs of the form. */
    method EditFields(category: string, description: string, amount: Option<int>, date: string)
      requires Valid()
      modifies this`category, this`description, this`amount, this`date
      ensures Valid()
      ensures this.category == category && this.description == description
      ensures this.amount == amount && this.date == date
    {
      this.category, this.description, this.amount, this.date := category, description, amount, date;
    }

    /** A selected user is removed from the selection and from the custom splits;
        an unselected one is appended, with a split of 0 in custom mode. */
    method ToggleUserSelection(userId: int)
      requires Valid()
      modifies this`selectedUsers, this`customSplits
      ensures Valid()
      ensures userId in old(selectedUsers) ==>
        selectedUsers == Remove(old(selectedUsers), userId) && customSplits == old(customSplits) - {userId}
      ensures userId !in old(selectedUsers) ==>
        selectedUsers == old(selectedUsers) + [userId] &&
        customSplits == if splitMethod == Custom then old(customSplits)[userId := 0] else old(customSplits)
    {
      if userId in selectedUsers {
        selectedUsers := Remove(selectedUsers, userId);
        customSplits := customSplits - {userId};
      } else {
        selectedUsers := selectedUsers + [userId];
        if splitMethod == Custom {
          customSplits := customSplits[userId := 0];
        }
      }
    }

    /** The share each selected user gets when custom mode is switched on: the
        rounded equal part of the amount (an empty amount counts as 0), or 0 when
        nobody is selected. */
    function InitialSplit(): int
      reads this
    {
      if |selectedUsers| > 0 then roundShare(match amount case Some(v) => v case None => 0, |selectedUsers| + 1)
      else 0
    }

    /** Switching to custom rebuilds the splits: every selected user, and no one
        else, gets the same initial share. Switching to equal keeps the splits. */
    method HandleSplitMethodChange(newMethod: SplitMethod)
      requires Valid()
      modifies this`splitMethod, this`customSplits
      ensures Valid()
      ensures splitMethod == newMethod
      ensures newMethod == Custom ==>
        customSplits.Keys == Elems(selectedUsers) &&
        forall u :: u in customSplits ==> customSplits[u] == InitialSplit()
      ensures newMethod == Equal ==> customSplits == old(customSplits)
    {
      splitMethod := newMethod;
      if newMethod == Custom {
        var split := InitialSplit();
        var newSplits: map<int, int> := map[];
        var i := 0;
        while i < |selectedUsers|
          invariant 0 <= i <= |selectedUsers|
          invariant newSplits.Keys == Elems(selectedUsers[..i])
          invariant forall u :: u in newSplits ==> newSplits[u] == split
        {
          assert selectedUsers[..i + 1] == selectedUsers[..i] + [selectedUsers[i]];
          newSplits := newSplits[selectedUsers[i] := split];
          i := i + 1;
        }
        assert selectedUsers[..i] == selectedUsers;
        customSplits := newSplits;
      }
    }

    /** Typing into a custom split input; unparsable text counts as 0. Inputs
        exist only for selected users, for whom the invariant is kept. */
    method HandleCustomSplitChange(userId: int, value: Option<int>)
      requires Valid()
      modifies this`customSplits
      ensures customSplits == old(customSplits)[userId := match value case Some(v) => v case None => 0]
      ensures userId in selectedUsers ==> Valid()
    {
      var v := match value case Some(v) => v case None => 0;
      customSplits := customSplits[userId := v];
    }

    predicate FieldsFilled()
      reads this
    {
      category != "" && description != "" && amount.Some? && date != ""
    }

    /** The fields every expense of one submission shares. */
    predicate SharesForm(x: GroupEntry, groupId: int)
      reads this
    {
      && x.category == category && x.description == description + GroupSuffix
      && x.date == date && x.isGroupExpense && x.groupExpenseId == groupId
    }

    /** The expense of one participant. */
    function Entry(userId: int, amount: int, groupId: int): (e: GroupEntry)
      reads this
      ensures e.userId == userId && e.amount == amount && SharesForm(e, groupId)
    {
      GroupEntry(userId, category, description + GroupSuffix, amount, date, true, groupId)
    }

    /** The total of the custom splits, summing the map's values one key at a time. */
    method SumCustomSplits() returns (othersTotal: int)
      ensures othersTotal == SumValues(customSplits)
    {
      othersTotal := 0;
      var rest := customSplits;
      while rest != map[]
        invariant othersTotal + SumValues(rest) == SumValues(customSplits)
        decreases |rest|
      {
        ghost var some := PickKey(rest);  // the witness that lets the choice below succeed
        var k :| k in rest;
        SumValuesRemove(rest, k);
        othersTotal := othersTotal + rest[k];
        assert (rest - {k}).Keys == rest.Keys - {k};
        rest := rest - {k};
      }
    }

    /** The current user's expense first, then one per selected user in selection
        order, each carrying the first expense's group id and the amount
        `amountOf` gives that user. */
    method BuildExpenses(currentUserId: int, firstAmount: int, groupId: int, amountOf: int -> int)
      returns (expenses: seq<GroupEntry>)
      ensures |expenses| == |selectedUsers| + 1
      ensures expenses[0] == Entry(currentUserId, firstAmount, groupId)
      ensures forall k :: 0 <= k < |expenses| ==> SharesForm(expenses[k], groupId)
      ensures forall i :: 0 <= i < |selectedUsers| ==>
        expenses[i + 1] == Entry(selectedUsers[i], amountOf(selectedUsers[i]), groupId)
    {
      expenses := [Entry(currentUserId, firstAmount, groupId)];
      var i := 0;
      while i < |selectedUsers|
        invariant 0 <= i <= |selectedUsers|
        invariant |expenses| == i + 1
        invariant expenses[0] == Entry(currentUserId, firstAmount, groupId)
        invariant forall k :: 0 <= k < |expenses| ==> SharesForm(expenses[k], groupId)
        invariant forall j :: 0 <= j < i ==>
          expenses[j + 1] == Entry(selectedUsers[j], amountOf(selectedUsers[j]), groupId)
      {
        var userId := selectedUsers[i];
        expenses := expenses + [Entry(userId, amountOf(userId), expenses[0].groupExpenseId)];
        i := i + 1;
      }
    }

    /** The notification lines, one per selected user in order: the equal share,
        or the user's custom split, or 0 when the user has none. */
    method BuildSplitWith(equalShare: int) returns (splitWith: seq<SplitShare>)
      ensures |splitWith| == |selectedUsers|
      ensures forall i :: 0 <= i < |selectedUsers| ==>
        splitWith[i].userId == selectedUsers[i] &&
        splitWith[i].amount == if splitMethod == Equal then equalShare
                               else if selectedUsers[i] in customSplits then customSplits[selectedUsers[i]]
                               else 0
    {
      splitWith := [];
      var i := 0;
      while i < |selectedUsers|
        invariant 0 <= i <= |selectedUsers|
        invariant |splitWith| == i
        invariant forall j :: 0 <= j < i ==>
          splitWith[j].userId == selectedUsers[j] &&
          splitWith[j].amount == if splitMethod == Equal then equalShare
                                 else if selectedUsers[j] in customSplits then customSplits[selectedUsers[j]]
                                 else 0
      {
        var userId := selectedUsers[i];
        var userAmount := if splitMethod == Equal then equalShare
                          else if userId in customSplits then customSplits[userId] else 0;
        splitWith := splitWith + [SplitShare(userId, userAmount)];
        i := i + 1;
      }
    }

    /** Submitting the form. An unfilled field or an empty selection is refused.
        Equal split: everyone, the current user first, gets the rounded share.
        Custom split: the selected users get their splits and the current user
        the remainder, which must not be negative; the amounts then add up to
        the total. All expenses share category, date, group id and the suffixed
        description. */
    method HandleSubmit(currentUserId: int, groupId: int) returns (outcome: SubmitOutcome)
      requires Valid()
      ensures !FieldsFilled() ==> outcome == Rejected(FillAllFieldsError)
      ensures FieldsFilled() && |selectedUsers| == 0 ==> outcome == Rejected(SelectUserError)
      ensures FieldsFilled() && |selectedUsers| > 0 && splitMethod == Equal ==> outcome.Built?
      ensures FieldsFilled() && |selectedUsers| > 0 && splitMethod == Custom ==>
        (outcome.Rejected? <==> amount.value < SumValues(customSplits))
      ensures FieldsFilled() && |selectedUsers| > 0 && splitMethod == Custom ==>
        (amount.value < SumValues(customSplits) ==> outcome == Rejected(SplitsExceedError))
      ensures outcome.Rejected? ==> outcome.error in {FillAllFieldsError, SelectUserError, SplitsExceedError}
      ensures outcome.Built? ==>
        && FieldsFilled() && |selectedUsers| > 0
        && |outcome.expenses| == |selectedUsers| + 1
        && outcome.expenses[0].userId == currentUserId
        && (forall i :: 0 <= i < |selectedUsers| ==> outcome.expenses[i + 1].userId == selectedUsers[i])
        && (forall k :: 0 <= k < |outcome.expenses| ==> SharesForm(outcome.expenses[k], groupId))
        && |outcome.splitWith| == |selectedUsers|
        && (forall i :: 0 <= i < |selectedUsers| ==>
              outcome.splitWith[i].userId == selectedUsers[i] &&
              outcome.splitWith[i].amount == outcome.expenses[i + 1].amount)
      ensures outcome.Built? && splitMethod == Equal ==>
        && (forall k :: 0 <= k < |outcome.expenses| ==>
              outcome.expenses[k].amount == roundShare(amount.value, |selectedUsers| + 1))
        && TotalAmount(outcome.expenses) == (|selectedUsers| + 1) * roundShare(amount.value, |selectedUsers| + 1)
      ensures outcome.Built? && splitMethod == Custom ==>
        && outcome.expenses[0].amount == amount.value - SumValues(customSplits)
        && (forall i :: 0 <= i < |selectedUsers| ==>
              outcome.expenses[i + 1].amount == customSplits[selectedUsers[i]])
        && TotalAmount(outcome.expenses) == amount.value
    {
      if !FieldsFilled() {
        return Rejected(FillAllFieldsError);
      }
      if |selectedUsers| == 0 {
        return Rejected(SelectUserError);
      }
      var total := amount.value;
      var expenses: seq<GroupEntry>;
      var equalShare := 0;
      if splitMethod == Equal {
        equalShare := roundShare(total, |selectedUsers| + 1);
        var share := equalShare;
        var everyone := (u: int) => share;
        expenses := BuildExpenses(currentUserId, share, groupId, everyone);
        forall k | 1 <= k < |expenses| ensures expenses[k].amount == share {
          assert expenses[k] == expenses[(k - 1) + 1];
          assert everyone(selectedUsers[k - 1]) == share;
        }
        TotalOfEqualShares(expenses, share);
      } else {
        var othersTotal := SumCustomSplits();
        var currentUserAmount := total - othersTotal;
        if currentUserAmount < 0 {
          return Rejected(SplitsExceedError);
        }
        var splits := customSplits;
        expenses := BuildExpenses(currentUserId, currentUserAmount, groupId,
                                  u => if u in splits then splits[u] else 0);
        assert expenses == [expenses[0]] + expenses[1..];
        TotalOfShares(expenses[1..], selectedUsers, customSplits);
        SumOverSelection(selectedUsers, customSplits);
      }
      var splitWith := BuildSplitWith(equalShare);
      outcome := Built(expenses, splitWith);
    }
  }
}
