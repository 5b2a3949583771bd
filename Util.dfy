/**
 * The aggregation helpers of lib/util.js: ordering rows by time, merging rows
 * that share a key, adding percentages, titling rows by their issue, and
 * left-to-right function composition.
 */
module Util {
  import opened Js
  import opened Records
  import opened Grouping

  // ---------------------------------------------------------------------
  // Ordering by time: `_.sortBy(items, item => item.time).reverse()`
  // ---------------------------------------------------------------------

  /** Inserts `x` in front of the first row whose time is not smaller, so
      that rows of equal time keep their input order. */
  function InsertByTime(x: Item, r: seq<Item>): (r': seq<Item>)
    ensures |r'| == |r| + 1
    ensures multiset(r') == multiset(r) + multiset{x}
    ensures r'[0] == x || (r != [] && r'[0] == r[0])
  {
    if r == [] || x.time <= r[0].time then [x] + r
    else
      assert r == [r[0]] + r[1..];
      [r[0]] + InsertByTime(x, r[1..])
  }

  /** lodash's `sortBy` on `time`: a stable ascending sort. */
  function StableSortByTime(s: seq<Item>): (r: seq<Item>)
    ensures |r| == |s|
    ensures multiset(r) == multiset(s)
  {
    if s == [] then []
    else
      assert s == [s[0]] + s[1..];
      InsertByTime(s[0], StableSortByTime(s[1..]))
  }

  function Reverse<T>(s: seq<T>): (r: seq<T>)
    ensures |r| == |s|
    ensures multiset(r) == multiset(s)
  {
    if s == [] then []
    else
      assert s == [s[0]] + s[1..];
      Reverse(s[1..]) + [s[0]]
  }

  /** `sortItemsByTime`. */
  function SortItemsByTime(items: seq<Item>): seq<Item> {
    Reverse(StableSortByTime(items))
  }

  predicate Ascending(s: seq<Item>) {
    forall i, j :: 0 <= i < j < |s| ==> s[i].time <= s[j].time
  }

  predicate NonIncreasing(s: seq<Item>) {
    forall i, j :: 0 <= i < j < |s| ==> s[i].time >= s[j].time
  }

  /** The rows of `s` whose time is `t`, in order. */
  function WithTime(s: seq<Item>, t: nat): seq<Item> {
    if s == [] then [] else (if s[0].time == t then [s[0]] else []) + WithTime(s[1..], t)
  }

  lemma {:induction false} InsertKeepsAscending(x: Item, r: seq<Item>)
    requires Ascending(r)
    ensures Ascending(InsertByTime(x, r))
    decreases |r|
  {
    if r != [] && x.time > r[0].time {
      InsertKeepsAscending(x, r[1..]);
      var tail := InsertByTime(x, r[1..]);
      assert r[0].time <= tail[0].time by {
        if tail[0] != x {
          assert tail[0] == r[1];
        }
      }
      assert InsertByTime(x, r) == [r[0]] + tail;
    }
  }

  lemma {:induction false} InsertWithTime(x: Item, r: seq<Item>, t: nat)
    ensures WithTime(InsertByTime(x, r), t) == (if x.time == t then [x] else []) + WithTime(r, t)
    decreases |r|
  {
    if r != [] && x.time > r[0].time {
      InsertWithTime(x, r[1..], t);
    }
  }

  lemma {:induction false} StableSortProperties(s: seq<Item>, t: nat)
    ensures Ascending(StableSortByTime(s))
    ensures WithTime(StableSortByTime(s), t) == WithTime(s, t)
    decreases |s|
  {
    if s != [] {
      StableSortProperties(s[1..], t);
      InsertKeepsAscending(s[0], StableSortByTime(s[1..]));
      InsertWithTime(s[0], StableSortByTime(s[1..]), t);
    }
  }

  lemma {:induction false} WithTimeAppend(a: seq<Item>, b: seq<Item>, t: nat)
    ensures WithTime(a + b, t) == WithTime(a, t) + WithTime(b, t)
    decreases |a|
  {
    if a == [] {
      assert a + b == b;
    } else {
      assert (a + b)[0] == a[0];
      assert (a + b)[1..] == a[1..] + b;
      WithTimeAppend(a[1..], b, t);
    }
  }

  lemma {:induction false} ReverseAppend<T>(a: seq<T>, b: seq<T>)
    ensures Reverse(a + b) == Reverse(b) + Reverse(a)
    decreases |a|
  {
    if a == [] {
      assert a + b == b;
    } else {
      assert (a + b)[1..] == a[1..] + b;
      ReverseAppend(a[1..], b);
    }
  }

  lemma {:induction false} ReverseAt<T>(s: seq<T>, i: nat)
    requires i < |s|
    ensures Reverse(s)[i] == s[|s| - 1 - i]
    decreases |s|
  {
    if i < |s| - 1 {
      ReverseAt(s[1..], i);
    }
  }

  lemma {:induction false} ReverseWithTime(s: seq<Item>, t: nat)
    ensures WithTime(Reverse(s), t) == Reverse(WithTime(s, t))
    decreases |s|
  {
    if s != [] {
      ReverseWithTime(s[1..], t);
      WithTimeAppend(Reverse(s[1..]), [s[0]], t);
      ReverseAppend(if s[0].time == t then [s[0]] else [], WithTime(s[1..], t));
    }
  }

  lemma ReverseAscending(s: seq<Item>)
    requires Ascending(s)
    ensures NonIncreasing(Reverse(s))
  {
    forall i, j | 0 <= i < j < |s| ensures Reverse(s)[i].time >= Reverse(s)[j].time {
      ReverseAt(s, i);
      ReverseAt(s, j);
    }
  }

  /** `sortItemsByTime` returns a permutation of its input that is
      non-increasing in time; rows of equal time come out in the reverse of
      their input order. */
  lemma SortItemsByTimeOrder(items: seq<Item>)
    ensures |SortItemsByTime(items)| == |items|
    ensures multiset(SortItemsByTime(items)) == multiset(items)
    ensures NonIncreasing(SortItemsByTime(items))
    ensures forall t: nat :: WithTime(SortItemsByTime(items), t) == Reverse(WithTime(items, t))
  {
    var sorted := StableSortByTime(items);
    StableSortProperties(items, 0);
    ReverseAscending(sorted);
    forall t: nat ensures WithTime(SortItemsByTime(items), t) == Reverse(WithTime(items, t)) {
      StableSortProperties(items, t);
      ReverseWithTime(sorted, t);
    }
  }

  lemma {:induction false} InsertSumTime(x: Item, r: seq<Item>)
    ensures SumTime(InsertByTime(x, r)) == SumTime(r) + x.time
    decreases |r|
  {
    if r == [] || x.time <= r[0].time {
      SumTimeCons(x, r);
    } else {
      InsertSumTime(x, r[1..]);
      SumTimeFront(r);
      SumTimeCons(r[0], InsertByTime(x, r[1..]));
    }
  }

  lemma SumTimeCons(x: Item, s: seq<Item>)
    ensures SumTime([x] + s) == x.time + SumTime(s)
  {
    SumTimeAppend([x], s);
    assert [x][..0] == [];
  }

  /** `s` is its first row followed by the rest. */
  lemma SplitFront<T>(s: seq<T>)
    requires s != []
    ensures s == [s[0]] + s[1..]
  {
  }

  lemma SumTimeFront(s: seq<Item>)
    requires s != []
    ensures SumTime(s) == s[0].time + SumTime(s[1..])
  {
    SplitFront(s);
    SumTimeCons(s[0], s[1..]);
  }

  lemma {:induction false} SortSumTime(s: seq<Item>)
    ensures SumTime(SortItemsByTime(s)) == SumTime(s)
  {
    StableSortSumTime(s);
    ReverseSumTime(StableSortByTime(s));
  }

  lemma {:induction false} StableSortSumTime(s: seq<Item>)
    ensures SumTime(StableSortByTime(s)) == SumTime(s)
    decreases |s|
  {
    if s != [] {
      StableSortSumTime(s[1..]);
      InsertSumTime(s[0], StableSortByTime(s[1..]));
      SumTimeFront(s);
    }
  }

  lemma {:induction false} ReverseSumTime(s: seq<Item>)
    ensures SumTime(Reverse(s)) == SumTime(s)
    decreases |s|
  {
    if s != [] {
      ReverseSumTime(s[1..]);
      SumTimeAppend(Reverse(s[1..]), [s[0]]);
      assert SumTime([s[0]]) == s[0].time by {
        assert [s[0]][..0] == [];
      }
      SumTimeFront(s);
    }
  }

  // ---------------------------------------------------------------------
  // mergeItems(items, mergeBy)
  // ---------------------------------------------------------------------

  /** `item[name]` converted to the text lodash's `groupBy` uses as a key. */
  function FieldText(item: Item, name: string): string {
    if name == "title" then item.title
    else if name == "time" then NatToString(item.time)
    else if name == "issueKey" then ToStr(item.issueKey)
    else if name == "issue" then (if item.issue.Some? then "[object Object]" else "undefined")
    else if name == "percent" then
      (match item.percent
       case None => "undefined"
       case Some(Finite(n)) => IntToString(n)
       case Some(NotANumber) => "NaN")
    else if name == "project" then (if item.project.Some? then item.project.value else "null")
    else "undefined"
  }

  /** `item.issueKey || item.title`. */
  function IssueKeyOrTitle(item: Item): string {
    if Truthy(item.issueKey) then ToStr(item.issueKey) else item.title
  }

  /** The `merger` of `mergeItems`: the field named by `mergeBy` when it is
      given (a non-empty name), else the issue key falling back to the title. */
  function MergeKey(mergeBy: Option<string>): Item -> string {
    if mergeBy.Some? && mergeBy.value != "" then
      var name := mergeBy.value;
      (item: Item) => FieldText(item, name)
    else
      IssueKeyOrTitle
  }

  /** `{...group[0], time}`: the group's first row with the group's total time. */
  function MergedRow(items: seq<Item>, keyOf: Item -> string, k: string): Item
    requires k in DistinctKeys(items, keyOf)
  {
    GroupNonEmpty(items, keyOf, k);
    var group := Group(items, keyOf, k);
    group[0].(time := SumTime(group))
  }

  /** One merged row per key, in order of the key's first occurrence. */
  function MergedRows(items: seq<Item>, keyOf: Item -> string): (rows: seq<Item>)
    ensures |rows| == |DistinctKeys(items, keyOf)|
  {
    var ks := DistinctKeys(items, keyOf);
    seq(|ks|, i requires 0 <= i < |ks| => MergedRow(items, keyOf, ks[i]))
  }

  /** `mergeItems`. */
  function MergeItems(items: seq<Item>, mergeBy: Option<string>): seq<Item> {
    SortItemsByTime(MergedRows(items, MergeKey(mergeBy)))
  }

  /** Before sorting, there is a merged row for each key and each row is a
      key's merged row. */
  lemma MergedRowsMembers(items: seq<Item>, keyOf: Item -> string)
    ensures var ks := DistinctKeys(items, keyOf);
      var rows := MergedRows(items, keyOf);
      && (forall k :: k in ks ==> MergedRow(items, keyOf, k) in rows)
      && (forall x :: x in rows ==> exists k :: k in ks && x == MergedRow(items, keyOf, k))
  {
    var ks := DistinctKeys(items, keyOf);
    var rows := MergedRows(items, keyOf);
    forall k | k in ks ensures MergedRow(items, keyOf, k) in rows {
      var i :| 0 <= i < |ks| && ks[i] == k;
      assert rows[i] == MergedRow(items, keyOf, k);
    }
    forall x | x in rows ensures exists k :: k in ks && x == MergedRow(items, keyOf, k) {
      var i :| 0 <= i < |rows| && rows[i] == x;
      assert ks[i] in ks;
    }
  }

  /** `mergeItems` yields one row per distinct merge key, each row being the
      merged row of its key; the rows are sorted non-increasingly by time
      and their total time is the input's total time. */
  lemma MergeItemsRows(items: seq<Item>, mergeBy: Option<string>)
    ensures var keyOf := MergeKey(mergeBy);
      var ks := DistinctKeys(items, keyOf);
      var r := MergeItems(items, mergeBy);
      && |r| == |ks|
      && (forall k :: k in ks ==> MergedRow(items, keyOf, k) in r)
      && (forall x :: x in r ==> exists k :: k in ks && x == MergedRow(items, keyOf, k))
      && NonIncreasing(r)
      && SumTime(r) == SumTime(items)
  {
    var keyOf := MergeKey(mergeBy);
    var ks := DistinctKeys(items, keyOf);
    var rows := MergedRows(items, keyOf);
    var r := MergeItems(items, mergeBy);
    SortItemsByTimeOrder(rows);
    assert forall x :: x in r <==> x in rows by {
      assert forall x :: x in r <==> x in multiset(r);
    }
    MergedRowsMembers(items, keyOf);
    forall i | 0 <= i < |rows| ensures rows[i].time == SumTime(Group(items, keyOf, ks[i])) {
    }
    GroupRowsPreserveTotal(rows, items, keyOf);
    SortSumTime(rows);
  }

  /** The merged row of a key is the first row carrying that key, with its
      time replaced by the sum of the times of all rows carrying that key. */
  lemma MergedRowIsFirstWithSum(items: seq<Item>, keyOf: Item -> string, i: nat)
    requires i < |items|
    requires forall j :: 0 <= j < i ==> keyOf(items[j]) != keyOf(items[i])
    ensures keyOf(items[i]) in DistinctKeys(items, keyOf)
    ensures MergedRow(items, keyOf, keyOf(items[i]))
         == items[i].(time := SumTime(Group(items, keyOf, keyOf(items[i]))))
  {
    assert items[i] in items;
    DistinctKeysMembers(items, keyOf);
    GroupHead(items, keyOf, i);
  }

  /** The items of the case in lib/util.test.js. */
  function AlphaBetaItems(): seq<Item> {
    [Row("alpha", 1), Row("alpha", 2), Row("beta", 3), Row("beta", 4)]
  }

  lemma AlphaBetaGroupTimes(keyOf: Item -> string)
    requires forall x :: keyOf(x) == x.title
    ensures SumTime(Group(AlphaBetaItems(), keyOf, "alpha")) == 3
    ensures SumTime(Group(AlphaBetaItems(), keyOf, "beta")) == 7
  {
    var items := AlphaBetaItems();
    var p1, p2, p3 := items[..1], items[..2], items[..3];
    assert p3[..2] == p2 && p2[..1] == p1 && p1[..0] == [] && items[..3] == p3;
    assert Group(p1, keyOf, "alpha") == [Row("alpha", 1)];
    assert Group(p1, keyOf, "beta") == [];
    assert Group(p2, keyOf, "alpha") == [Row("alpha", 1), Row("alpha", 2)];
    assert Group(items, keyOf, "alpha") == [Row("alpha", 1), Row("alpha", 2)];
    assert Group(p2, keyOf, "beta") == [];
    assert Group(items, keyOf, "beta") == [Row("beta", 3), Row("beta", 4)];
    assert [Row("alpha", 1), Row("alpha", 2)][..1] == [Row("alpha", 1)];
    assert [Row("beta", 3), Row("beta", 4)][..1] == [Row("beta", 3)];
  }

  /** The case in lib/util.test.js: merging by title sums alpha to 3 and
      beta to 7. */
  lemma MergeItemsByTitleExample()
    ensures Row("alpha", 3) in MergeItems(AlphaBetaItems(), Some("title"))
    ensures Row("beta", 7) in MergeItems(AlphaBetaItems(), Some("title"))
  {
    var items := AlphaBetaItems();
    var keyOf := MergeKey(Some("title"));
    assert forall x :: keyOf(x) == x.title;
    AlphaBetaGroupTimes(keyOf);
    MergedRowIsFirstWithSum(items, keyOf, 0);
    MergedRowIsFirstWithSum(items, keyOf, 2);
    MergeItemsRows(items, Some("title"));
  }

  // ---------------------------------------------------------------------
  // calculatePercentages(items, countBy = 'time', passedTotal)
  // ---------------------------------------------------------------------

  /** `Math.round(n / d)` for a positive `d`: the nearest integer, halves
      rounded up. */
  function RoundHalfUp(n: int, d: nat): int
    requires d > 0
  {
    (2 * n + d) / (2 * d)
  }

  /** `Math.round((v / total) * 100)`, NaN when the total is zero. */
  function Percent(v: nat, total: nat): Number {
    if total == 0 then NotANumber else Finite(RoundHalfUp(100 * v, total))
  }

  /** The total used: `passedTotal` when truthy (non-zero), else the sum. */
  function PercentTotal(items: seq<Item>, passedTotal: nat): nat {
    if passedTotal != 0 then passedTotal else SumTime(items)
  }

  /** `calculatePercentages(items, 'time', passedTotal)`, with `passedTotal`
      0 standing for a falsy or missing total. */
  function CalculatePercentages(items: seq<Item>, passedTotal: nat): (r: seq<Item>)
    ensures |r| == |items|
  {
    var total := PercentTotal(items, passedTotal);
    seq(|items|, i requires 0 <= i < |items| => items[i].(percent := Some(Percent(items[i].time, total))))
  }

  /** Round-half-up characterised without division: `p` is the rounding of
      `n / d` exactly when `p - 1/2 <= n / d < p + 1/2`. */
  lemma RoundHalfUpNearest(n: int, d: nat, p: int)
    requires d > 0
    ensures p == RoundHalfUp(n, d) <==> 2 * d * p - d <= 2 * n < 2 * d * p + d
  {
    var dd := 2 * d;
    var q := (2 * n + d) / dd;
    var m := (2 * n + d) % dd;
    assert 2 * n + d == dd * q + m && 0 <= m < dd;
    if q < p {
      MulMonotone(dd, q + 1, p);
      assert dd * (q + 1) == dd * q + dd;
    } else if q > p {
      MulMonotone(dd, p + 1, q);
      assert dd * (p + 1) == dd * p + dd;
    }
  }

  lemma MulMonotone(a: nat, x: int, y: int)
    requires x <= y
    ensures a * x <= a * y
  {
    assert a * y - a * x == a * (y - x);
  }

  /** `calculatePercentages` keeps length, order and every other field, and
      sets each row's percent to its time over the total, as a rounded
      percentage; a zero total gives NaN. */
  lemma CalculatePercentagesSpec(items: seq<Item>, passedTotal: nat, i: nat)
    requires i < |items|
    ensures var r := CalculatePercentages(items, passedTotal);
      var total := if passedTotal != 0 then passedTotal else SumTime(items);
      && r[i].(percent := items[i].percent) == items[i]
      && (total == 0 <==> r[i].percent == Some(NotANumber))
      && (total > 0 ==>
            && r[i].percent.Some? && r[i].percent.value.Finite?
            && 2 * total * r[i].percent.value.n - total <= 200 * items[i].time
            && 200 * items[i].time < 2 * total * r[i].percent.value.n + total)
  {
    var total := PercentTotal(items, passedTotal);
    if total > 0 {
      RoundHalfUpNearest(100 * items[i].time, total, RoundHalfUp(100 * items[i].time, total));
    }
  }

  lemma {:induction false} ItemTimeBounded(items: seq<Item>, i: nat)
    requires i < |items|
    ensures items[i].time <= SumTime(items)
    decreases |items|
  {
    if i < |items| - 1 {
      ItemTimeBounded(items[..|items| - 1], i);
    }
  }

  /** Without a passed total every percentage lies between 0 and 100. */
  lemma PercentagesWithinRange(items: seq<Item>, i: nat)
    requires i < |items|
    requires SumTime(items) > 0
    ensures var p := CalculatePercentages(items, 0)[i].percent;
      p.Some? && p.value.Finite? && 0 <= p.value.n <= 100
  {
    ItemTimeBounded(items, i);
    PercentBetweenZeroAndHundred(items[i].time, SumTime(items));
  }

  lemma PercentBetweenZeroAndHundred(v: nat, total: nat)
    requires 0 < total && v <= total
    ensures 0 <= RoundHalfUp(100 * v, total) <= 100
  {
    var p := RoundHalfUp(100 * v, total);
    RoundHalfUpNearest(100 * v, total, p);
    if p > 100 {
      MulMonotone(2 * total, 101, p);
    } else if p < 0 {
      MulMonotone(2 * total, p, -1);
    }
  }

  /** A passed total of 0 is falsy: the percentages fall back to the sum. */
  lemma ZeroPassedTotalFallsBack(items: seq<Item>)
    ensures CalculatePercentages(items, 0) == CalculatePercentages(items, SumTime(items))
  {
  }

  lemma CalculatePercentagesExample()
    ensures CalculatePercentages([Row("a", 1), Row("b", 3)], 0)
         == [Row("a", 1).(percent := Some(Finite(25))), Row("b", 3).(percent := Some(Finite(75)))]
  {
    var items := [Row("a", 1), Row("b", 3)];
    assert items[..1] == [Row("a", 1)];
    assert SumTime(items) == 4;
  }

  // ---------------------------------------------------------------------
  // useIssueTitles(items)
  // ---------------------------------------------------------------------

  /** `${item.issueKey} ${item.issue.summary}` when the row has an issue. */
  function IssueTitle(item: Item): string {
    if item.issue.Some? then ToStr(item.issueKey) + " " + ToStr(item.issue.value.summary)
    else item.title
  }

  /** `useIssueTitles`. */
  function UseIssueTitles(items: seq<Item>): (r: seq<Item>)
    ensures |r| == |items|
  {
    seq(|items|, i requires 0 <= i < |items| => items[i].(title := IssueTitle(items[i])))
  }

  /** A row with an issue is retitled "<issueKey> <summary>"; a row without
      one is left exactly as it was; no other field changes. */
  lemma UseIssueTitlesSpec(items: seq<Item>, i: nat)
    requires i < |items|
    ensures var r := UseIssueTitles(items);
      && r[i].(title := items[i].title) == items[i]
      && (items[i].issue.Some? ==>
            r[i].title == ToStr(items[i].issueKey) + " " + ToStr(items[i].issue.value.summary))
      && (items[i].issue.None? ==> r[i] == items[i])
  {
  }

  // ---------------------------------------------------------------------
  // compose(...functions)(props)
  // ---------------------------------------------------------------------

  /** `functions.reduce((acc, func) => func(acc), props)`. */
  function Compose<T>(functions: seq<T -> T>, props: T): T {
    if functions == [] then props else Compose(functions[1..], functions[0](props))
  }

  /** Composition applies the functions left to right: composing a
      concatenation runs the first part, then the second. */
  lemma {:induction false} ComposeAppend<T>(fs: seq<T -> T>, gs: seq<T -> T>, x: T)
    ensures Compose(fs + gs, x) == Compose(gs, Compose(fs, x))
    decreases |fs|
  {
    if fs == [] {
      assert fs + gs == gs;
    } else {
      assert (fs + gs)[1..] == fs[1..] + gs;
      ComposeAppend(fs[1..], gs, fs[0](x));
    }
  }

  lemma ComposeTwo<T>(f: T -> T, g: T -> T, x: T)
    ensures Compose([f, g], x) == g(f(x))
  {
    assert [f, g][1..] == [g];
    assert [g][1..] == [];
    assert Compose([g], f(x)) == Compose([], g(f(x)));
  }
}
