/** The expense list screen of the browser client: the list state with its delete
    and append updates, and the values derived from it on every render (filtered,
    sorted, grouped by category with totals, the category list, the overall total
    and the per-category percentage). Amounts are integers (paise) and dates are
    integers (a timestamp). */
module ExpenseList {
  import opened Text

  datatype Expense = Expense(id: int, category: string, description: string, amount: int, date: int)

  // ---------------------------------------------------------------------------
  // Keeping the elements that satisfy a test (`Array.prototype.filter`)

  function Keep(xs: seq<Expense>, p: Expense -> bool): (r: seq<Expense>)
    ensures |r| <= |xs|
  {
    if xs == [] then []
    else (if p(xs[0]) then [xs[0]] else []) + Keep(xs[1..], p)
  }

  /** The kept elements are exactly the elements that pass the test. */
  lemma {:induction false} KeepMembers(xs: seq<Expense>, p: Expense -> bool)
    ensures forall e :: e in Keep(xs, p) <==> e in xs && p(e)
  {
    if xs != [] {
      KeepMembers(xs[1..], p);
      assert xs == [xs[0]] + xs[1..];
    }
  }

  /** Filtering distributes over concatenation: the kept elements keep their
      relative order. */
  lemma {:induction false} KeepConcat(a: seq<Expense>, b: seq<Expense>, p: Expense -> bool)
    ensures Keep(a + b, p) == Keep(a, p) + Keep(b, p)
  {
    if a == [] {
      assert a + b == b;
    } else {
      var head := if p(a[0]) then [a[0]] else [];
      assert (a + b)[0] == a[0];
      assert (a + b)[1..] == a[1..] + b;
      KeepConcat(a[1..], b, p);
      calc {
        Keep(a + b, p);
        head + Keep(a[1..] + b, p);
        head + (Keep(a[1..], p) + Keep(b, p));
        (head + Keep(a[1..], p)) + Keep(b, p);
        Keep(a, p) + Keep(b, p);
      }
    }
  }

  /** A test every element passes keeps the whole list. */
  lemma {:induction false} KeepAll(xs: seq<Expense>, p: Expense -> bool)
    requires forall e :: e in xs ==> p(e)
    ensures Keep(xs, p) == xs
  {
    if xs != [] {
      KeepAll(xs[1..], p);
    }
  }

  // ---------------------------------------------------------------------------
  // Filtering by category and search term

  /** The category filter is off (empty) or equals the expense's category, and the
      search term is empty or occurs in the lower-cased description. */
  predicate Matches(e: Expense, filterCategory: string, searchTerm: string)
  {
    && (filterCategory == "" || e.category == filterCategory)
    && (searchTerm == "" || Contains(Lower(e.description), Lower(searchTerm)))
  }

  function Matching(filterCategory: string, searchTerm: string): Expense -> bool
  {
    (e: Expense) => Matches(e, filterCategory, searchTerm)
  }

  function FilterExpenses(xs: seq<Expense>, filterCategory: string, searchTerm: string): seq<Expense>
  {
    Keep(xs, Matching(filterCategory, searchTerm))
  }

  /** The filter keeps exactly the matching expenses, in their original order;
      with both controls empty it keeps everything. */
  lemma FilterSpec(xs: seq<Expense>, ys: seq<Expense>, filterCategory: string, searchTerm: string)
    ensures forall e :: e in FilterExpenses(xs, filterCategory, searchTerm) <==>
                        e in xs && Matches(e, filterCategory, searchTerm)
    ensures FilterExpenses(xs + ys, filterCategory, searchTerm) ==
            FilterExpenses(xs, filterCategory, searchTerm) + FilterExpenses(ys, filterCategory, searchTerm)
    ensures filterCategory == "" && searchTerm == "" ==> FilterExpenses(xs, filterCategory, searchTerm) == xs
  {
    KeepMembers(xs, Matching(filterCategory, searchTerm));
    KeepConcat(xs, ys, Matching(filterCategory, searchTerm));
    if filterCategory == "" && searchTerm == "" {
      KeepAll(xs, Matching(filterCategory, searchTerm));
    }
  }

  // ---------------------------------------------------------------------------
  // Sorting with the comparator of the screen (a stable sort)

  /** The comparator: difference of dates or of amounts, ascending for "asc" and
      descending for any other order; 0 (keep order) for any other field. */
  function Compare(a: Expense, b: Expense, sortBy: string, sortOrder: string): int
  {
    if sortBy == "date" then
      (if sortOrder == "asc" then a.date - b.date else b.date - a.date)
    else if sortBy == "amount" then
      (if sortOrder == "asc" then a.amount - b.amount else b.amount - a.amount)
    else 0
  }

  ghost predicate SortedBy(s: seq<Expense>, sortBy: string, sortOrder: string)
  {
    forall i, j :: 0 <= i < j < |s| ==> Compare(s[i], s[j], sortBy, sortOrder) <= 0
  }

  /** Places `x` before the first element it does not compare greater than. */
  function Insert(x: Expense, ys: seq<Expense>, sortBy: string, sortOrder: string): (r: seq<Expense>)
    ensures |r| == |ys| + 1
  {
    if ys == [] || Compare(x, ys[0], sortBy, sortOrder) <= 0 then [x] + ys
    else [ys[0]] + Insert(x, ys[1..], sortBy, sortOrder)
  }

  /** Insertion sort: each element is placed ahead of the equal ones that came
      after it, so equal elements keep their relative order (`SortStable`). */
  function SortExpenses(xs: seq<Expense>, sortBy: string, sortOrder: string): (r: seq<Expense>)
    ensures |r| == |xs|
  {
    if xs == [] then []
    else Insert(xs[0], SortExpenses(xs[1..], sortBy, sortOrder), sortBy, sortOrder)
  }

  /** Inserting adds exactly the one element. */
  lemma {:induction false} InsertPermutes(x: Expense, ys: seq<Expense>, sortBy: string, sortOrder: string)
    ensures multiset(Insert(x, ys, sortBy, sortOrder)) == multiset(ys) + multiset{x}
  {
    if ys != [] && Compare(x, ys[0], sortBy, sortOrder) > 0 {
      InsertPermutes(x, ys[1..], sortBy, sortOrder);
      assert ys == [ys[0]] + ys[1..];
    }
  }

  /** The sorted list is a permutation of its input. */
  lemma {:induction false} SortPermutes(xs: seq<Expense>, sortBy: string, sortOrder: string)
    ensures multiset(SortExpenses(xs, sortBy, sortOrder)) == multiset(xs)
  {
    if xs != [] {
      SortPermutes(xs[1..], sortBy, sortOrder);
      InsertPermutes(xs[0], SortExpenses(xs[1..], sortBy, sortOrder), sortBy, sortOrder);
      assert xs == [xs[0]] + xs[1..];
    }
  }

  /** Inserting brings in `x` and nothing else new. */
  lemma {:induction false} InsertMembers(x: Expense, ys: seq<Expense>, sortBy: string, sortOrder: string)
    ensures forall z :: z in Insert(x, ys, sortBy, sortOrder) ==> z == x || z in ys
  {
    if ys != [] && Compare(x, ys[0], sortBy, sortOrder) > 0 {
      InsertMembers(x, ys[1..], sortBy, sortOrder);
    }
  }

  lemma {:induction false} InsertSorted(x: Expense, ys: seq<Expense>, sortBy: string, sortOrder: string)
    requires SortedBy(ys, sortBy, sortOrder)
    ensures SortedBy(Insert(x, ys, sortBy, sortOrder), sortBy, sortOrder)
  {
    if ys != [] && Compare(x, ys[0], sortBy, sortOrder) > 0 {
      var tail := Insert(x, ys[1..], sortBy, sortOrder);
      InsertSorted(x, ys[1..], sortBy, sortOrder);
      InsertMembers(x, ys[1..], sortBy, sortOrder);
      var r := [ys[0]] + tail;
      forall j | 0 < j < |r|
        ensures Compare(r[0], r[j], sortBy, sortOrder) <= 0
      {
        assert r[j] == tail[j - 1] && tail[j - 1] in tail;
        if r[j] != x {
          var k :| 0 <= k < |ys[1..]| && ys[1..][k] == r[j];
          assert ys[k + 1] == r[j];
        }
      }
      forall i, j | 0 < i < j < |r|
        ensures Compare(r[i], r[j], sortBy, sortOrder) <= 0
      {
        assert r[i] == tail[i - 1] && r[j] == tail[j - 1];
      }
      assert Insert(x, ys, sortBy, sortOrder) == r;
    }
  }

  lemma {:induction false} SortSorted(xs: seq<Expense>, sortBy: string, sortOrder: string)
    ensures SortedBy(SortExpenses(xs, sortBy, sortOrder), sortBy, sortOrder)
  {
    if xs != [] {
      SortSorted(xs[1..], sortBy, sortOrder);
      InsertSorted(xs[0], SortExpenses(xs[1..], sortBy, sortOrder), sortBy, sortOrder);
    }
  }

  /** The sorted list is a permutation of its input, ordered by date or amount in
      the requested direction. */
  lemma SortSpec(xs: seq<Expense>, sortBy: string, sortOrder: string)
    ensures multiset(SortExpenses(xs, sortBy, sortOrder)) == multiset(xs)
    ensures var r := SortExpenses(xs, sortBy, sortOrder);
      forall i, j :: 0 <= i < j < |r| ==>
        && (sortBy == "date" && sortOrder == "asc" ==> r[i].date <= r[j].date)
        && (sortBy == "date" && sortOrder != "asc" ==> r[i].date >= r[j].date)
        && (sortBy == "amount" && sortOrder == "asc" ==> r[i].amount <= r[j].amount)
        && (sortBy == "amount" && sortOrder != "asc" ==> r[i].amount >= r[j].amount)
  {
    SortPermutes(xs, sortBy, sortOrder);
    SortSorted(xs, sortBy, sortOrder);
  }

  /** For a field other than date or amount the comparator always answers 0 and
      the list keeps its order. */
  lemma {:induction false} SortOtherFieldKeepsOrder(xs: seq<Expense>, sortBy: string, sortOrder: string)
    requires sortBy != "date" && sortBy != "amount"
    ensures SortExpenses(xs, sortBy, sortOrder) == xs
  {
    if xs != [] {
      SortOtherFieldKeepsOrder(xs[1..], sortBy, sortOrder);
    }
  }

  /** The expenses of `xs` the comparator finds equal to `a` (same date, same
      amount, or every expense for any other field), in list order. */
  function Ties(xs: seq<Expense>, a: Expense, sortBy: string, sortOrder: string): seq<Expense>
  {
    if xs == [] then []
    else (if Compare(a, xs[0], sortBy, sortOrder) == 0 then [xs[0]] else []) + Ties(xs[1..], a, sortBy, sortOrder)
  }

  lemma {:induction false} TiesConcat(xs: seq<Expense>, ys: seq<Expense>, a: Expense, sortBy: string, sortOrder: string)
    ensures Ties(xs + ys, a, sortBy, sortOrder) == Ties(xs, a, sortBy, sortOrder) + Ties(ys, a, sortBy, sortOrder)
  {
    if xs == [] {
      assert xs + ys == ys;
    } else {
      assert (xs + ys)[0] == xs[0];
      assert (xs + ys)[1..] == xs[1..] + ys;
      TiesConcat(xs[1..], ys, a, sortBy, sortOrder);
    }
  }

  lemma TiesOne(y: Expense, a: Expense, sortBy: string, sortOrder: string)
    ensures Ties([y], a, sortBy, sortOrder) == if Compare(a, y, sortBy, sortOrder) == 0 then [y] else []
  {
    assert [y][1..] == [];
  }

  /** An element that compares greater than another cannot tie with the same
      element as it. */
  lemma NoTieAcross(x: Expense, y: Expense, a: Expense, sortBy: string, sortOrder: string)
    requires Compare(x, y, sortBy, sortOrder) > 0
    ensures Compare(a, x, sortBy, sortOrder) != 0 || Compare(a, y, sortBy, sortOrder) != 0
  {
  }

  /** Inserting `x` puts it after the elements it compares greater than, none of
      which ties with anything that ties with `x`; so among the ties of `a`, `x`
      comes first and the others keep their order. */
  lemma {:induction false} InsertStable(x: Expense, ys: seq<Expense>, sortBy: string, sortOrder: string, a: Expense)
    ensures Ties(Insert(x, ys, sortBy, sortOrder), a, sortBy, sortOrder) ==
      Ties([x], a, sortBy, sortOrder) + Ties(ys, a, sortBy, sortOrder)
  {
    if ys == [] || Compare(x, ys[0], sortBy, sortOrder) <= 0 {
      TiesConcat([x], ys, a, sortBy, sortOrder);
    } else {
      InsertStable(x, ys[1..], sortBy, sortOrder, a);
      TiesShift(ys[0], x, ys[1..], Insert(x, ys[1..], sortBy, sortOrder), a, sortBy, sortOrder);
      assert ys == [ys[0]] + ys[1..];
    }
  }

  /** Moving `x` past an element it compares greater than keeps the ties of `a`
      in order. */
  lemma TiesShift(y: Expense, x: Expense, rest: seq<Expense>, r: seq<Expense>, a: Expense, sortBy: string, sortOrder: string)
    requires Compare(x, y, sortBy, sortOrder) > 0
    requires Ties(r, a, sortBy, sortOrder) == Ties([x], a, sortBy, sortOrder) + Ties(rest, a, sortBy, sortOrder)
    ensures Ties([y] + r, a, sortBy, sortOrder) == Ties([x], a, sortBy, sortOrder) + Ties([y] + rest, a, sortBy, sortOrder)
  {
    TiesConcat([y], r, a, sortBy, sortOrder);
    TiesConcat([y], rest, a, sortBy, sortOrder);
    TiesOne(y, a, sortBy, sortOrder);
    TiesOne(x, a, sortBy, sortOrder);
    NoTieAcross(x, y, a, sortBy, sortOrder);
    if Compare(a, x, sortBy, sortOrder) == 0 {
      assert Ties([y], a, sortBy, sortOrder) == [];
    } else {
      assert Ties([x], a, sortBy, sortOrder) == [];
    }
  }

  /** The sort is stable: the expenses the comparator finds equal appear in the
      sorted list in the order they had before. */
  lemma {:induction false} SortStable(xs: seq<Expense>, sortBy: string, sortOrder: string, a: Expense)
    ensures Ties(SortExpenses(xs, sortBy, sortOrder), a, sortBy, sortOrder) == Ties(xs, a, sortBy, sortOrder)
  {
    if xs != [] {
      SortStable(xs[1..], sortBy, sortOrder, a);
      InsertStable(xs[0], SortExpenses(xs[1..], sortBy, sortOrder), sortBy, sortOrder, a);
      assert xs == [xs[0]] + xs[1..];
      TiesConcat([xs[0]], xs[1..], a, sortBy, sortOrder);
    }
  }

  // ---------------------------------------------------------------------------
  // Totals, categories and grouping

  /** The sum of the amounts (`reduce((sum, e) => sum + e.amount, 0)`). */
  function Total(xs: seq<Expense>): int
  {
    if xs == [] then 0 else xs[0].amount + Total(xs[1..])
  }

  lemma {:induction false} TotalConcat(a: seq<Expense>, b: seq<Expense>)
    ensures Total(a + b) == Total(a) + Total(b)
  {
    if a == [] {
      assert a + b == b;
    } else {
      assert (a + b)[0] == a[0];
      assert (a + b)[1..] == a[1..] + b;
      TotalConcat(a[1..], b);
    }
  }

  /** Inserting adds the inserted expense's amount to the total. */
  lemma {:induction false} InsertTotal(x: Expense, ys: seq<Expense>, sortBy: string, sortOrder: string)
    ensures Total(Insert(x, ys, sortBy, sortOrder)) == x.amount + Total(ys)
  {
    if ys != [] && Compare(x, ys[0], sortBy, sortOrder) > 0 {
      InsertTotal(x, ys[1..], sortBy, sortOrder);
    }
  }

  /** Sorting does not change the total. */
  lemma {:induction false} SortTotal(xs: seq<Expense>, sortBy: string, sortOrder: string)
    ensures Total(SortExpenses(xs, sortBy, sortOrder)) == Total(xs)
  {
    if xs != [] {
      SortTotal(xs[1..], sortBy, sortOrder);
      InsertTotal(xs[0], SortExpenses(xs[1..], sortBy, sortOrder), sortBy, sortOrder);
    }
  }

  /** The distinct categories in order of first appearance (`[...new Set(...)]`). */
  function Categories(xs: seq<Expense>): seq<string>
  {
    if xs == [] then []
    else
      var cs := Categories(xs[..|xs| - 1]);
      var e := xs[|xs| - 1];
      if e.category in cs then cs else cs + [e.category]
  }

  /** No category is listed twice. */
  lemma {:induction false} CategoriesDistinct(xs: seq<Expense>)
    ensures NoDuplicates(Categories(xs))
  {
    if xs != [] {
      CategoriesDistinct(xs[..|xs| - 1]);
    }
  }

  /** Every category of the list is listed, and nothing else. */
  lemma {:induction false} CategoriesMembers(xs: seq<Expense>)
    ensures forall c :: c in Categories(xs) <==> exists e :: e in xs && e.category == c
  {
    if xs != [] {
      var init := xs[..|xs| - 1];
      CategoriesMembers(init);
      assert xs == init + [xs[|xs| - 1]];
    }
  }

  lemma CategoriesStep(xs: seq<Expense>, e: Expense)
    ensures Categories(xs + [e]) ==
      if e.category in Categories(xs) then Categories(xs) else Categories(xs) + [e.category]
  {
    assert (xs + [e])[..|xs|] == xs;
  }

  function CategoryIs(c: string): Expense -> bool
  {
    (e: Expense) => e.category == c
  }

  /** A category group: its expenses and their total. */
  datatype Group = Group(expenses: seq<Expense>, total: int)

  /** The sum of the totals of the groups named by `cs`. */
  function GroupTotals(xs: seq<Expense>, cs: seq<string>): int
  {
    if cs == [] then 0 else Total(Keep(xs, CategoryIs(cs[0]))) + GroupTotals(xs, cs[1..])
  }

  /** One expense adds its amount to exactly one group: its own category's. */
  lemma {:induction false} OneGroupGetsIt(e: Expense, cs: seq<string>)
    requires NoDuplicates(cs)
    ensures GroupTotals([e], cs) == if e.category in cs then e.amount else 0
  {
    if cs != [] {
      OneGroupGetsIt(e, cs[1..]);
      KeepOne(e, cs[0]);
      assert e.category == cs[0] ==> e.category !in cs[1..];
    }
  }

  /** Grouping a single expense: it lands in its own category's group only. */
  lemma KeepOne(e: Expense, c: string)
    ensures Keep([e], CategoryIs(c)) == if e.category == c then [e] else []
    ensures Total(Keep([e], CategoryIs(c))) == if e.category == c then e.amount else 0
  {
    assert [e][1..] == [];
  }

  lemma {:induction false} GroupTotalsConcat(a: seq<Expense>, b: seq<Expense>, cs: seq<string>)
    ensures GroupTotals(a + b, cs) == GroupTotals(a, cs) + GroupTotals(b, cs)
  {
    if cs != [] {
      GroupTotalsConcat(a, b, cs[1..]);
      KeepConcat(a, b, CategoryIs(cs[0]));
      TotalConcat(Keep(a, CategoryIs(cs[0])), Keep(b, CategoryIs(cs[0])));
    }
  }

  lemma {:induction false} GroupTotalsOfNothing(cs: seq<string>)
    ensures GroupTotals([], cs) == 0
  {
    if cs != [] {
      GroupTotalsOfNothing(cs[1..]);
    }
  }

  /** The group totals add up to the overall total when every category appears
      exactly once among the groups. */
  lemma {:induction false} GroupTotalsSum(xs: seq<Expense>, cs: seq<string>)
    requires NoDuplicates(cs)
    requires forall e :: e in xs ==> e.category in cs
    ensures GroupTotals(xs, cs) == Total(xs)
  {
    if xs == [] {
      GroupTotalsOfNothing(cs);
    } else {
      assert xs == [xs[0]] + xs[1..];
      assert xs[0] in xs;
      GroupTotalsConcat([xs[0]], xs[1..], cs);
      OneGroupGetsIt(xs[0], cs);
      assert forall e :: e in xs[1..] ==> e in xs;
      GroupTotalsSum(xs[1..], cs);
      assert GroupTotals(xs, cs) == xs[0].amount + Total(xs[1..]);
    }
  }

  /** The expenses of category `c`, in list order, collected from the front as
      the reducer meets them. */
  function InCategory(xs: seq<Expense>, c: string): seq<Expense>
  {
    if xs == [] then []
    else
      var before := InCategory(xs[..|xs| - 1], c);
      if xs[|xs| - 1].category == c then before + [xs[|xs| - 1]] else before
  }

  /** Collecting a category is filtering the list by it. */
  lemma {:induction false} InCategoryIsFilter(xs: seq<Expense>, c: string)
    ensures InCategory(xs, c) == Keep(xs, CategoryIs(c))
  {
    if xs != [] {
      var init := xs[..|xs| - 1];
      InCategoryIsFilter(init, c);
      assert xs == init + [xs[|xs| - 1]];
      KeepConcat(init, [xs[|xs| - 1]], CategoryIs(c));
      KeepOne(xs[|xs| - 1], c);
    }
  }

  /** A category absent from the list has no expenses in it. */
  lemma {:induction false} AbsentCategory(xs: seq<Expense>, c: string)
    requires c !in Categories(xs)
    ensures InCategory(xs, c) == []
  {
    if xs != [] {
      var init := xs[..|xs| - 1];
      assert c !in Categories(init);
      AbsentCategory(init, c);
    }
  }

  /** One more expense joins its own category's expenses and total, and no other's. */
  lemma GroupAt(xs: seq<Expense>, e: Expense, c: string)
    ensures InCategory(xs + [e], c) ==
      if c == e.category then InCategory(xs, c) + [e] else InCategory(xs, c)
    ensures Total(InCategory(xs + [e], c)) ==
      if c == e.category then Total(InCategory(xs, c)) + e.amount else Total(InCategory(xs, c))
  {
    assert (xs + [e])[..|xs|] == xs;
    TotalConcat(InCategory(xs, c), [e]);
  }

  /** The state of the reducer after a prefix `xs` of the list: one group per
      category seen so far, `order` listing them by first appearance, each group
      holding exactly its category's expenses, in list order, with their total. */
  ghost predicate Grouped(groups: map<string, Group>, order: seq<string>, xs: seq<Expense>)
  {
    && order == Categories(xs)
    && (forall c :: c in groups <==> c in order)
    && (forall c :: c in groups ==> groups[c] == Group(InCategory(xs, c), Total(InCategory(xs, c))))
  }

  /** Once every expense is grouped, the group totals add up to the overall total. */
  lemma GroupedTotals(xs: seq<Expense>)
    ensures GroupTotals(xs, Categories(xs)) == Total(xs)
  {
    CategoriesMembers(xs);
    CategoriesDistinct(xs);
    GroupTotalsSum(xs, Categories(xs));
  }

  /** The names every plain object inherits from `Object.prototype`. Looking one
      of them up on the accumulator finds a function (for `__proto__`, the
      prototype itself), never `undefined`. */
  const InheritedNames: set<string> := {
    "constructor", "hasOwnProperty", "isPrototypeOf", "propertyIsEnumerable",
    "toLocaleString", "toString", "valueOf", "__proto__",
    "__defineGetter__", "__defineSetter__", "__lookupGetter__", "__lookupSetter__"}

  /** The reducer: creates the expense's group when it is missing (recording
      the category in `order`), then pushes the expense and adds its amount.
      `xs` is the part of the list already reduced. The accumulator is a plain
      object, so for an inherited name no group is created and pushing onto the
      inherited member's `expenses` throws: `ok` is false. */
  method AddToGroup(groups: map<string, Group>, order: seq<string>, ghost xs: seq<Expense>, e: Expense)
    returns (ok: bool, groups': map<string, Group>, order': seq<string>)
    requires Grouped(groups, order, xs)
    ensures ok <==> e.category !in InheritedNames
    ensures ok ==> Grouped(groups', order', xs + [e])
  {
    if e.category in InheritedNames {
      return false, groups, order;
    }
    ok := true;
    groups', order' := groups, order;
    if e.category !in groups' {
      groups' := groups'[e.category := Group([], 0)];
      order' := order' + [e.category];
    }
    var g := groups'[e.category];
    groups' := groups'[e.category := Group(g.expenses + [e], g.total + e.amount)];
    CategoriesStep(xs, e);
    if e.category !in groups {
      AbsentCategory(xs, e.category);
    }
    forall c | c in groups'
      ensures groups'[c] == Group(InCategory(xs + [e], c), Total(InCategory(xs + [e], c)))
    {
      GroupAt(xs, e, c);
    }
  }

  /** Groups the (sorted) expenses by category with the reducer; `order` lists
      the groups in the order they were created. The reduce throws (`ok` is
      false) exactly when some category is an inherited name. Otherwise each
      group holds exactly the expenses of its category, in list order, and the
      totals sum to the overall total. */
  method GroupByCategory(sorted: seq<Expense>) returns (ok: bool, groups: map<string, Group>, order: seq<string>)
    ensures ok <==> forall i :: 0 <= i < |sorted| ==> sorted[i].category !in InheritedNames
    ensures ok ==> order == Categories(sorted)
    ensures ok ==> forall c :: c in groups <==> c in order
    ensures ok ==> forall c :: c in groups ==>
      groups[c].expenses == Keep(sorted, CategoryIs(c)) && groups[c].total == Total(groups[c].expenses)
    ensures ok ==> GroupTotals(sorted, order) == Total(sorted)
  {
    groups, order := map[], [];
    var i := 0;
    while i < |sorted|
      invariant 0 <= i <= |sorted|
      invariant forall j :: 0 <= j < i ==> sorted[j].category !in InheritedNames
      invariant Grouped(groups, order, sorted[..i])
    {
      assert sorted[..i + 1] == sorted[..i] + [sorted[i]];
      ok, groups, order := AddToGroup(groups, order, sorted[..i], sorted[i]);
      if !ok {
        return;
      }
      i := i + 1;
    }
    ok := true;
    assert sorted[..i] == sorted;
    forall c | c in groups
      ensures groups[c].expenses == Keep(sorted, CategoryIs(c))
    {
      InCategoryIsFilter(sorted, c);
    }
    GroupedTotals(sorted);
  }

  // ---------------------------------------------------------------------------
  // The order in which the groups are shown (`Object.keys`)

  /** A canonical array index: "0", or decimal digits without a leading zero,
      of value below 2^32 - 1. */
  predicate IsArrayIndex(k: string)
  {
    |k| > 0 && AllDigits(k) && (k[0] != '0' || |k| == 1) && ParseDecimal(k) < 0xFFFF_FFFF
  }

  /** The numeric value of a key made of digits, 0 for any other key. */
  function IndexValue(k: string): nat
  {
    if AllDigits(k) then ParseDecimal(k) else 0
  }

  /** The array-index keys, in creation order. */
  function IndexKeys(order: seq<string>): (r: seq<string>)
    ensures forall k :: k in r <==> k in order && IsArrayIndex(k)
  {
    if order == [] then []
    else (if IsArrayIndex(order[0]) then [order[0]] else []) + IndexKeys(order[1..])
  }

  /** The other keys, in creation order. */
  function NamedKeys(order: seq<string>): (r: seq<string>)
    ensures forall k :: k in r <==> k in order && !IsArrayIndex(k)
  {
    if order == [] then []
    else (if IsArrayIndex(order[0]) then [] else [order[0]]) + NamedKeys(order[1..])
  }

  lemma {:induction false} KeysSplit(order: seq<string>)
    ensures |IndexKeys(order)| + |NamedKeys(order)| == |order|
  {
    if order != [] {
      KeysSplit(order[1..]);
    }
  }

  /** Places `k` before the first key of no smaller value. */
  function InsertKey(k: string, ks: seq<string>): (r: seq<string>)
    ensures |r| == |ks| + 1
  {
    if ks == [] || IndexValue(k) <= IndexValue(ks[0]) then [k] + ks
    else [ks[0]] + InsertKey(k, ks[1..])
  }

  function SortKeys(ks: seq<string>): (r: seq<string>)
    ensures |r| == |ks|
  {
    if ks == [] then [] else InsertKey(ks[0], SortKeys(ks[1..]))
  }

  ghost predicate AscendingValues(ks: seq<string>)
  {
    forall i, j :: 0 <= i < j < |ks| ==> IndexValue(ks[i]) <= IndexValue(ks[j])
  }

  lemma {:induction false} InsertKeyMembers(k: string, ks: seq<string>)
    ensures forall z :: z in InsertKey(k, ks) <==> z == k || z in ks
  {
    if ks != [] && IndexValue(k) > IndexValue(ks[0]) {
      InsertKeyMembers(k, ks[1..]);
      assert ks == [ks[0]] + ks[1..];
    }
  }

  lemma {:induction false} InsertKeyAscending(k: string, ks: seq<string>)
    requires AscendingValues(ks)
    ensures AscendingValues(InsertKey(k, ks))
  {
    if ks != [] && IndexValue(k) > IndexValue(ks[0]) {
      var tail := InsertKey(k, ks[1..]);
      InsertKeyAscending(k, ks[1..]);
      InsertKeyMembers(k, ks[1..]);
      var r := [ks[0]] + tail;
      forall j | 0 < j < |r|
        ensures IndexValue(r[0]) <= IndexValue(r[j])
      {
        assert r[j] == tail[j - 1] && tail[j - 1] in tail;
        if r[j] != k {
          var m :| 0 <= m < |ks[1..]| && ks[1..][m] == r[j];
          assert ks[m + 1] == r[j];
        }
      }
      forall i, j | 0 < i < j < |r|
        ensures IndexValue(r[i]) <= IndexValue(r[j])
      {
        assert r[i] == tail[i - 1] && r[j] == tail[j - 1];
      }
      assert InsertKey(k, ks) == r;
    }
  }

  /** Sorting the keys keeps exactly the same keys and orders them by value. */
  lemma {:induction false} SortKeysSpec(ks: seq<string>)
    ensures forall z :: z in SortKeys(ks) <==> z in ks
    ensures AscendingValues(SortKeys(ks))
  {
    if ks != [] {
      SortKeysSpec(ks[1..]);
      InsertKeyMembers(ks[0], SortKeys(ks[1..]));
      InsertKeyAscending(ks[0], SortKeys(ks[1..]));
      assert ks == [ks[0]] + ks[1..];
    }
  }

  /** `Object.keys` of an object whose keys were created in `order`: the
      array-index keys first, in ascending numeric order, then the other keys
      in creation order. */
  function ObjectKeys(order: seq<string>): seq<string>
  {
    SortKeys(IndexKeys(order)) + NamedKeys(order)
  }

  /** The keys listed are exactly the keys created, as many of them; the
      array-index keys come first, by ascending value, and the others follow in
      creation order. */
  lemma ObjectKeysSpec(order: seq<string>)
    ensures forall k :: k in ObjectKeys(order) <==> k in order
    ensures |ObjectKeys(order)| == |order|
    ensures var r, n := ObjectKeys(order), |IndexKeys(order)|;
      && (forall i :: 0 <= i < n ==> IsArrayIndex(r[i]))
      && (forall i, j :: 0 <= i < j < n ==> IndexValue(r[i]) <= IndexValue(r[j]))
      && r[n..] == NamedKeys(order)
  {
    var r, n := ObjectKeys(order), |IndexKeys(order)|;
    SortKeysSpec(IndexKeys(order));
    KeysSplit(order);
    forall i | 0 <= i < n
      ensures IsArrayIndex(r[i])
    {
      assert r[i] == SortKeys(IndexKeys(order))[i];
      assert r[i] in SortKeys(IndexKeys(order));
    }
    forall i, j | 0 <= i < j < n
      ensures IndexValue(r[i]) <= IndexValue(r[j])
    {
      assert r[i] == SortKeys(IndexKeys(order))[i] && r[j] == SortKeys(IndexKeys(order))[j];
    }
    assert r[n..] == NamedKeys(order);
  }

  /** Without array-index keys, the keys are listed in creation order. */
  lemma {:induction false} ObjectKeysInCreationOrder(order: seq<string>)
    requires forall i :: 0 <= i < |order| ==> !IsArrayIndex(order[i])
    ensures ObjectKeys(order) == order
  {
    NoIndexKeys(order);
  }

  lemma {:induction false} NoIndexKeys(order: seq<string>)
    requires forall i :: 0 <= i < |order| ==> !IsArrayIndex(order[i])
    ensures IndexKeys(order) == [] && NamedKeys(order) == order
  {
    if order != [] {
      NoIndexKeys(order[1..]);
      assert order == [order[0]] + order[1..];
    }
  }

  /** The categories are shown in first-appearance order unless some of them
      are array indexes: then those come first, by value. */
  lemma ShownInFirstAppearanceOrder(xs: seq<Expense>)
    requires forall i :: 0 <= i < |xs| ==> !IsArrayIndex(xs[i].category)
    ensures ObjectKeys(Categories(xs)) == Categories(xs)
  {
    CategoriesMembers(xs);
    var cs := Categories(xs);
    forall i | 0 <= i < |cs|
      ensures !IsArrayIndex(cs[i])
    {
      assert cs[i] in cs;
    }
    ObjectKeysInCreationOrder(cs);
  }

  lemma ExampleKeys()
    ensures IsArrayIndex("10") && IndexValue("10") == 10
    ensures IsArrayIndex("2") && IndexValue("2") == 2
    ensures !IsArrayIndex("Food")
  {
    assert !IsDigit('F');
    assert ParseDecimal("1") == 1 by { assert "1"[..0] == []; }
    assert ParseDecimal("10") == 10 by { assert "10"[..1] == "1"; }
    assert ParseDecimal("2") == 2 by { assert "2"[..0] == []; }
  }

  /** Categories "Food", "10", "2" created in that order are shown as "2", "10", "Food". */
  lemma NumericCategoriesFirst()
    ensures ObjectKeys(["Food", "10", "2"]) == ["2", "10", "Food"]
  {
    ExampleKeys();
    var order := ["Food", "10", "2"];
    assert order[1..] == ["10", "2"] && order[1..][1..] == ["2"];
    assert IndexKeys(order) == ["10", "2"];
    assert NamedKeys(order) == ["Food"];
    assert SortKeys(["10", "2"]) == ["2", "10"] by {
      assert ["10", "2"][1..] == ["2"];
    }
  }

  /** The share of a category in the overall total, in percent; 0 when the overall
      total is not positive. */
  function Percentage(categoryTotal: int, overallTotal: int): (r: real)
    ensures overallTotal <= 0 ==> r == 0.0
    ensures overallTotal > 0 ==> r * overallTotal as real == 100.0 * categoryTotal as real
  {
    if overallTotal > 0 then (categoryTotal as real / overallTotal as real) * 100.0 else 0.0
  }

  /** A group whose total lies between 0 and the overall total gets between 0 and 100 percent. */
  lemma PercentageBounds(categoryTotal: int, overallTotal: int)
    requires 0 <= categoryTotal <= overallTotal
    ensures 0.0 <= Percentage(categoryTotal, overallTotal) <= 100.0
  {
    if overallTotal > 0 {
      var q := categoryTotal as real / overallTotal as real;
      assert q * overallTotal as real == categoryTotal as real;
      assert 0.0 <= q <= 1.0;
    }
  }

  // ---------------------------------------------------------------------------
  // The list state

  function IdIsNot(id: int): Expense -> bool
  {
    (e: Expense) => e.id != id
  }

  /** Deleting keeps the other expenses in order: deleting from a concatenation is
      deleting from each part. */
  lemma DeleteKeepsOrder(a: seq<Expense>, b: seq<Expense>, id: int)
    ensures Keep(a + b, IdIsNot(id)) == Keep(a, IdIsNot(id)) + Keep(b, IdIsNot(id))
    ensures forall e :: e in Keep(a + b, IdIsNot(id)) ==> e.id != id
  {
    KeepConcat(a, b, IdIsNot(id));
    KeepMembers(a + b, IdIsNot(id));
  }

  class ExpenseListState {
    var expenses: seq<Expense>
    var filterCategory: string
    var sortBy: string
    var sortOrder: string
    var searchTerm: string

    /** An empty list, no category filter, newest date first, no search. */
    constructor()
      ensures expenses == [] && filterCategory == "" && sortBy == "date" && sortOrder == "desc" && searchTerm == ""
    {
      expenses := [];
      filterCategory := "";
      sortBy := "date";
      sortOrder := "desc";
      searchTerm := "";
    }

    function FilteredExpenses(): seq<Expense>
      reads this
    {
      FilterExpenses(expenses, filterCategory, searchTerm)
    }

    function SortedExpenses(): seq<Expense>
      reads this
    {
      SortExpenses(FilteredExpenses(), sortBy, sortOrder)
    }

    function OverallTotal(): int
      reads this
    {
      Total(SortedExpenses())
    }

    function CategoryList(): seq<string>
      reads this
    {
      Categories(expenses)
    }

    /** The displayed total is the total of the matching expenses, whatever the sort. */
    lemma OverallTotalIsFilteredTotal()
      ensures OverallTotal() == Total(FilteredExpenses())
    {
      SortTotal(FilteredExpenses(), sortBy, sortOrder);
    }

    /** Removes every expense with the given id; the others stay in order. */
    method HandleDelete(id: int)
      modifies this`expenses
      ensures expenses == Keep(old(expenses), IdIsNot(id))
      ensures forall e :: e in expenses <==> e in old(expenses) && e.id != id
    {
      KeepMembers(expenses, IdIsNot(id));
      expenses := Keep(expenses, IdIsNot(id));
    }

    /** Appends the new expense after the existing ones. */
    method OnExpenseAdded(e: Expense)
      modifies this`expenses
      ensures expenses == old(expenses) + [e]
    {
      expenses := expenses + [e];
    }
  }

}
