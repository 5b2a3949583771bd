/**
 * Grouping of report rows the way lodash's `groupBy` followed by
 * `Object.keys(grouped).map(...)` does it in `mergeItems` (lib/util.js) and
 * `groupAndSumItems` (lib/toggl.js): groups are visited in the order their
 * key first occurs, each group keeps its members in input order, and a
 * group's time is the sum of its members' times.
 */
module Grouping {
  import opened Js
  import opened Records

  /** `items.reduce((acc, item) => acc + item.time, 0)`. */
  function SumTime(s: seq<Item>): nat {
    if s == [] then 0 else SumTime(s[..|s| - 1]) + s[|s| - 1].time
  }

  lemma {:induction false} SumTimeAppend(a: seq<Item>, b: seq<Item>)
    ensures SumTime(a + b) == SumTime(a) + SumTime(b)
    decreases |b|
  {
    if b == [] {
      assert a + b == a;
    } else {
      var n := |b| - 1;
      assert (a + b)[..|a + b| - 1] == a + b[..n];
      SumTimeAppend(a, b[..n]);
    }
  }

  /** `grouped[k]`: the items whose key is `k`, in input order. */
  function Group(s: seq<Item>, keyOf: Item -> string, k: string): seq<Item>
  {
    if s == [] then []
    else
      var last := s[|s| - 1];
      Group(s[..|s| - 1], keyOf, k) + (if keyOf(last) == k then [last] else [])
  }

  /** `Object.keys(_.groupBy(s, keyOf))`: each key once, in order of first
      occurrence. */
  function DistinctKeys(s: seq<Item>, keyOf: Item -> string): (ks: seq<string>)
    ensures NoDuplicates(ks)
  {
    if s == [] then []
    else
      var init := DistinctKeys(s[..|s| - 1], keyOf);
      var k := keyOf(s[|s| - 1]);
      if k in init then init else init + [k]
  }

  /** A group holds exactly the items with its key. */
  lemma {:induction false} GroupMembers(s: seq<Item>, keyOf: Item -> string, k: string)
    ensures forall x :: x in Group(s, keyOf, k) <==> x in s && keyOf(x) == k
    decreases |s|
  {
    if s != [] {
      var n := |s| - 1;
      GroupMembers(s[..n], keyOf, k);
      assert s == s[..n] + [s[n]];
    }
  }

  /** The distinct keys are exactly the keys of the items. */
  lemma {:induction false} DistinctKeysMembers(s: seq<Item>, keyOf: Item -> string)
    ensures forall k :: k in DistinctKeys(s, keyOf) <==> exists x :: x in s && keyOf(x) == k
    decreases |s|
  {
    if s != [] {
      var n := |s| - 1;
      DistinctKeysMembers(s[..n], keyOf);
      assert s == s[..n] + [s[n]];
      assert forall x :: x in s <==> x in s[..n] || x == s[n];
    }
  }

  lemma GroupNonEmpty(s: seq<Item>, keyOf: Item -> string, k: string)
    requires k in DistinctKeys(s, keyOf)
    ensures |Group(s, keyOf, k)| > 0
  {
    DistinctKeysMembers(s, keyOf);
    var x :| x in s && keyOf(x) == k;
    GroupMembers(s, keyOf, k);
    assert x in Group(s, keyOf, k);
  }

  /** The first member of a group is the first item of the input with
      that key. */
  lemma {:induction false} GroupHead(s: seq<Item>, keyOf: Item -> string, i: nat)
    requires i < |s|
    requires forall j :: 0 <= j < i ==> keyOf(s[j]) != keyOf(s[i])
    ensures |Group(s, keyOf, keyOf(s[i]))| > 0
    ensures Group(s, keyOf, keyOf(s[i]))[0] == s[i]
    decreases |s|
  {
    var k := keyOf(s[i]);
    var n := |s| - 1;
    if i < n {
      assert s[..n][i] == s[i];
      assert forall j :: 0 <= j < i ==> s[..n][j] == s[j];
      GroupHead(s[..n], keyOf, i);
    } else {
      GroupMembers(s[..n], keyOf, k);
      assert forall x :: x in s[..n] ==> keyOf(x) != k by {
        forall x | x in s[..n] ensures keyOf(x) != k {
          var j :| 0 <= j < n && s[..n][j] == x;
          assert s[j] == x;
        }
      }
      EmptyWithoutMembers(Group(s[..n], keyOf, k));
    }
  }

  lemma EmptyWithoutMembers<T>(g: seq<T>)
    ensures (forall x :: x !in g) ==> g == []
  {
    if g != [] {
      assert g[0] in g;
    }
  }

  /** The sum, over the keys `ks`, of the time of each key's group. */
  function GroupsTotal(s: seq<Item>, keyOf: Item -> string, ks: seq<string>): nat {
    if ks == [] then 0
    else GroupsTotal(s, keyOf, ks[..|ks| - 1]) + SumTime(Group(s, keyOf, ks[|ks| - 1]))
  }

  lemma {:induction false} GroupsTotalAppendItem(s: seq<Item>, x: Item, keyOf: Item -> string, ks: seq<string>)
    requires NoDuplicates(ks)
    ensures GroupsTotal(s + [x], keyOf, ks)
         == GroupsTotal(s, keyOf, ks) + (if keyOf(x) in ks then x.time else 0)
    decreases |ks|
  {
    if ks != [] {
      var n := |ks| - 1;
      var k := ks[n];
      assert (s + [x])[..|s + [x]| - 1] == s;
      GroupsTotalAppendItem(s, x, keyOf, ks[..n]);
      assert keyOf(x) in ks <==> keyOf(x) in ks[..n] || keyOf(x) == k;
      assert keyOf(x) == k ==> keyOf(x) !in ks[..n];
      if keyOf(x) == k {
        SumTimeAppend(Group(s, keyOf, k), [x]);
      } else {
        assert Group(s + [x], keyOf, k) == Group(s, keyOf, k);
      }
    }
  }

  lemma {:induction false} GroupsTotalCovers(s: seq<Item>, keyOf: Item -> string, ks: seq<string>)
    requires NoDuplicates(ks)
    requires forall x :: x in s ==> keyOf(x) in ks
    ensures GroupsTotal(s, keyOf, ks) == SumTime(s)
    decreases |s|
  {
    if s == [] {
      GroupsTotalEmpty(keyOf, ks);
    } else {
      var n := |s| - 1;
      assert s == s[..n] + [s[n]];
      GroupsTotalCovers(s[..n], keyOf, ks);
      GroupsTotalAppendItem(s[..n], s[n], keyOf, ks);
    }
  }

  lemma {:induction false} GroupsTotalEmpty(keyOf: Item -> string, ks: seq<string>)
    ensures GroupsTotal([], keyOf, ks) == 0
    decreases |ks|
  {
    if ks != [] {
      GroupsTotalEmpty(keyOf, ks[..|ks| - 1]);
    }
  }

  /** Rows that carry, key by key, the time of each key's group add up to
      the groups' total. */
  lemma {:induction false} RowsTotal(rows: seq<Item>, s: seq<Item>, keyOf: Item -> string, ks: seq<string>)
    requires |rows| == |ks|
    requires forall i :: 0 <= i < |rows| ==> rows[i].time == SumTime(Group(s, keyOf, ks[i]))
    ensures SumTime(rows) == GroupsTotal(s, keyOf, ks)
    decreases |ks|
  {
    if ks != [] {
      var n := |ks| - 1;
      RowsTotal(rows[..n], s, keyOf, ks[..n]);
    }
  }

  /** One row per distinct key carrying its group's time: the rows' total
      time is the input's total time. */
  lemma GroupRowsPreserveTotal(rows: seq<Item>, s: seq<Item>, keyOf: Item -> string)
    requires |rows| == |DistinctKeys(s, keyOf)|
    requires forall i :: 0 <= i < |rows| ==>
      rows[i].time == SumTime(Group(s, keyOf, DistinctKeys(s, keyOf)[i]))
    ensures SumTime(rows) == SumTime(s)
  {
    var ks := DistinctKeys(s, keyOf);
    RowsTotal(rows, s, keyOf, ks);
    DistinctKeysMembers(s, keyOf);
    forall x | x in s ensures keyOf(x) in ks {
    }
    GroupsTotalCovers(s, keyOf, ks);
  }
}
