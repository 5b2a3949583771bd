/**
 * lib/reports.js: the array operations behind interactive report editing —
 * merging two rows, merging two rows of an array in place, and removing a
 * row by index.
 */
module Reports {
  import opened Js
  import opened Records
  import opened Grouping

  /** `a + b` on percentages: a missing (`undefined`) summand or a NaN
      gives NaN. */
  function AddPercent(a: Number, b: Option<Number>): (r: Number)
    ensures r.Finite? <==> a.Finite? && b.Some? && b.value.Finite?
  {
    if a.Finite? && b.Some? && b.value.Finite? then Finite(a.n + b.value.n) else NotANumber
  }

  /** `mergeItems(primary, secondary)`: a new row holding only a title, a
      time and, when `primary` has one, a percentage. */
  function MergeItems(primary: Item, secondary: Item): Item {
    Item(primary.title, primary.time + secondary.time, Undefined, None,
      if primary.percent.Some? then Some(AddPercent(primary.percent.value, secondary.percent)) else None,
      None)
  }

  /** The merged row keeps the primary's title, adds the times, carries a
      percentage exactly when the primary has one (the sum when both are
      numbers) and drops every other field. */
  lemma MergeItemsSpec(primary: Item, secondary: Item)
    ensures var m := MergeItems(primary, secondary);
      && m.title == primary.title
      && SumTime([m]) == SumTime([primary, secondary])
      && (m.percent.Some? <==> primary.percent.Some?)
      && (primary.percent.Some? && primary.percent.value.Finite? && secondary.percent.Some?
          && secondary.percent.value.Finite?
          ==> m.percent == Some(Finite(primary.percent.value.n + secondary.percent.value.n)))
      && (primary.percent.Some? && secondary.percent.None? ==> m.percent == Some(NotANumber))
      && m.issueKey == Undefined && m.issue.None? && m.project.None?
  {
    assert [primary, secondary][..1] == [primary];
  }

  // ---------------------------------------------------------------------
  // removeItemFromArray
  // ---------------------------------------------------------------------

  /** `removeItemFromArray(items, index)`: a new array; `items` is untouched. */
  function RemoveItemFromArray(items: seq<Item>, index: int): seq<Item> {
    Slice(items, 0, index) + Slice(items, index + 1, |items|)
  }

  /** A valid index removes exactly that row and keeps the others in order;
      an index past the end removes nothing. */
  lemma RemoveItemFromArraySpec(items: seq<Item>, index: int)
    ensures 0 <= index < |items| ==>
      && RemoveItemFromArray(items, index) == items[..index] + items[index + 1..]
      && |RemoveItemFromArray(items, index)| == |items| - 1
      && multiset(RemoveItemFromArray(items, index)) + multiset{items[index]} == multiset(items)
    ensures index >= |items| ==> RemoveItemFromArray(items, index) == items
  {
    if 0 <= index < |items| {
      assert items == items[..index] + [items[index]] + items[index + 1..];
    }
    if index >= |items| {
      assert items[..|items|] == items;
    }
  }

  // ---------------------------------------------------------------------
  // mergeArrayItems
  // ---------------------------------------------------------------------

  /** `s` without its row at `k`, the others in order. */
  function RemoveAt(s: seq<Item>, k: nat): (r: seq<Item>)
    requires k < |s|
    ensures |r| == |s| - 1
  {
    s[..k] + s[k + 1..]
  }

  /** `s` is the rows before `k`, the row at `k` and the rows after it. */
  lemma RemoveAtSplit(s: seq<Item>, k: nat)
    requires k < |s|
    ensures s == (s[..k] + [s[k]]) + s[k + 1..]
    ensures RemoveAt(s, k) == s[..k] + s[k + 1..]
  {
  }

  lemma RemoveAtSpec(s: seq<Item>, k: nat)
    requires k < |s|
    ensures multiset(RemoveAt(s, k)) + multiset{s[k]} == multiset(s)
    ensures SumTime(RemoveAt(s, k)) + s[k].time == SumTime(s)
  {
    var a, x, c := s[..k], [s[k]], s[k + 1..];
    RemoveAtSplit(s, k);
    SumTimeAppend(a + x, c);
    SumTimeAppend(a, x);
    SumTimeAppend(a, c);
    assert SumTime(x) == s[k].time by {
      assert x[..0] == [];
    }
  }

  /** What `a.splice(start, 1)` takes out of `a`, and what it leaves. */
  datatype Spliced = Spliced(taken: Option<Item>, rest: seq<Item>)

  function SpliceOne(s: seq<Item>, start: int): (r: Spliced)
    ensures r.taken.Some? <==> RelativeIndex(start, |s|) < |s|
    ensures r.taken.None? ==> r.rest == s
  {
    var k := RelativeIndex(start, |s|);
    if k < |s| then Spliced(Some(s[k]), RemoveAt(s, k)) else Spliced(None, s)
  }

  /** A JavaScript array that operations shorten in place. */
  class ItemArray {
    var elems: seq<Item>

    constructor (elems0: seq<Item>)
      ensures elems == elems0
    {
      elems := elems0;
    }

    /** `this.splice(start, 1)`: the removed rows (none or one). */
    method Splice(start: int) returns (removed: seq<Item>)
      modifies this
      ensures var sp := SpliceOne(old(elems), start);
        && elems == sp.rest
        && removed == (if sp.taken.Some? then [sp.taken.value] else [])
    {
      var k := RelativeIndex(start, |elems|);
      if k < |elems| {
        removed := [elems[k]];
        elems := elems[..k] + elems[k + 1..];
      } else {
        removed := [];
      }
    }
  }

  /** The value `mergeArrayItems` returns (or the error it throws) and the
      contents it leaves in the caller's array. */
  datatype Outcome = Outcome(result: Result<seq<Item>>, after: seq<Item>)

  const ReadOfUndefined := "TypeError: Cannot read property of undefined"

  /** `mergeArrayItems(items, secondaryIndex, primaryIndex)` as written: the
      second `splice` indexes into the array the first one shortened. */
  function MergeArrayOutcome(s: seq<Item>, secondaryIndex: int, primaryIndex: int): Outcome {
    if secondaryIndex == primaryIndex then Outcome(Ok(s), s)
    else
      var first := SpliceOne(s, secondaryIndex);
      var second := SpliceOne(first.rest, primaryIndex);
      if second.taken.None? || first.taken.None? then Outcome(Err(ReadOfUndefined), second.rest)
      else Outcome(Ok(second.rest + [MergeItems(second.taken.value, first.taken.value)]), second.rest)
  }

  method MergeArrayItems(items: ItemArray, secondaryIndex: int, primaryIndex: int)
    returns (r: Result<seq<Item>>)
    modifies items
    ensures r == MergeArrayOutcome(old(items.elems), secondaryIndex, primaryIndex).result
    ensures items.elems == MergeArrayOutcome(old(items.elems), secondaryIndex, primaryIndex).after
  {
    if secondaryIndex == primaryIndex {
      return Ok(items.elems);
    }
    var secondary := items.Splice(secondaryIndex);
    var primary := items.Splice(primaryIndex);
    if |primary| == 0 || |secondary| == 0 {
      return Err(ReadOfUndefined);
    }
    r := Ok(items.elems + [MergeItems(primary[0], secondary[0])]);
  }

  /** The rows of `s` other than those at `i` and `j`, in order. */
  function RemoveTwo(s: seq<Item>, i: nat, j: nat): seq<Item>
    requires i < |s| && j < |s| && i != j
  {
    var lo := if i < j then i else j;
    var hi := if i < j then j else i;
    RemoveAt(RemoveAt(s, hi), lo)
  }

  /** Rows before the removed one keep their index. */
  lemma RemoveAtBefore(s: seq<Item>, k: nat, i: nat)
    requires i < k < |s|
    ensures RemoveAt(s, k)[i] == s[i]
  {
    RemoveAtSplit(s, k);
  }

  lemma RemoveTwoMultiset(s: seq<Item>, lo: nat, hi: nat)
    requires lo < hi < |s|
    ensures multiset(RemoveTwo(s, lo, hi)) + multiset{s[lo]} + multiset{s[hi]} == multiset(s)
  {
    RemoveAtBefore(s, hi, lo);
    RemoveAtSpec(s, hi);
    RemoveAtSpec(RemoveAt(s, hi), lo);
  }

  lemma RemoveTwoTime(s: seq<Item>, lo: nat, hi: nat)
    requires lo < hi < |s|
    ensures SumTime(RemoveTwo(s, lo, hi)) + s[lo].time + s[hi].time == SumTime(s)
  {
    RemoveAtBefore(s, hi, lo);
    RemoveAtSpec(s, hi);
    RemoveAtSpec(RemoveAt(s, hi), lo);
  }

  lemma RemoveTwoSpec(s: seq<Item>, i: nat, j: nat)
    requires i < |s| && j < |s| && i != j
    ensures |RemoveTwo(s, i, j)| == |s| - 2
    ensures multiset(RemoveTwo(s, i, j)) + multiset{s[i], s[j]} == multiset(s)
    ensures SumTime(RemoveTwo(s, i, j)) + s[i].time + s[j].time == SumTime(s)
  {
    var lo := if i < j then i else j;
    var hi := if i < j then j else i;
    assert RemoveTwo(s, i, j) == RemoveTwo(s, lo, hi);
    RemoveTwoMultiset(s, lo, hi);
    RemoveTwoTime(s, lo, hi);
    assert multiset{s[i], s[j]} == multiset{s[lo]} + multiset{s[hi]};
  }

  /** Equal indices return a copy and leave the array alone. */
  lemma MergeArraySameIndex(s: seq<Item>, index: int)
    ensures MergeArrayOutcome(s, index, index) == Outcome(Ok(s), s)
  {
  }

  /** For distinct valid indices, the row at `secondaryIndex` is removed,
      then the row at `primaryIndex` of the shortened array: the caller's
      array loses two rows, and the call succeeds exactly when
      `primaryIndex` is still an index of the shortened array, returning
      one row fewer than it was given. */
  lemma MergeArrayAsWritten(s: seq<Item>, secondaryIndex: nat, primaryIndex: nat)
    requires secondaryIndex < |s| && primaryIndex < |s| && secondaryIndex != primaryIndex
    ensures var o := MergeArrayOutcome(s, secondaryIndex, primaryIndex);
      var shortened := RemoveAt(s, secondaryIndex);
      && (o.result.Ok? <==> primaryIndex < |s| - 1)
      && (o.result.Ok? ==>
            && o.after == RemoveAt(shortened, primaryIndex)
            && o.result.value == o.after + [MergeItems(shortened[primaryIndex], s[secondaryIndex])]
            && |o.after| == |s| - 2
            && |o.result.value| == |s| - 1)
      && (o.result.Err? ==> o.after == shortened)
  {
  }

  /** When the primary row comes first, the as-written merge removes the
      two chosen rows and keeps the total time. */
  lemma MergeArrayPrimaryFirst(s: seq<Item>, secondaryIndex: nat, primaryIndex: nat)
    requires primaryIndex < secondaryIndex < |s|
    ensures var o := MergeArrayOutcome(s, secondaryIndex, primaryIndex);
      && o.after == RemoveTwo(s, secondaryIndex, primaryIndex)
      && o.result == Ok(o.after + [MergeItems(s[primaryIndex], s[secondaryIndex])])
      && SumTime(o.result.value) == SumTime(s)
  {
    MergeArrayIntendedSpec(s, secondaryIndex, primaryIndex);
    MergeArrayIntendedAgrees(s, secondaryIndex, primaryIndex);
  }

  /** Appending the merge of the two removed rows restores the total time. */
  lemma MergedArrayTotal(s: seq<Item>, secondaryIndex: nat, primaryIndex: nat)
    requires secondaryIndex < |s| && primaryIndex < |s| && secondaryIndex != primaryIndex
    ensures SumTime(RemoveTwo(s, secondaryIndex, primaryIndex) + [MergeItems(s[primaryIndex], s[secondaryIndex])])
         == SumTime(s)
  {
    var m := MergeItems(s[primaryIndex], s[secondaryIndex]);
    RemoveTwoSpec(s, secondaryIndex, primaryIndex);
    SumTimeAppend(RemoveTwo(s, secondaryIndex, primaryIndex), [m]);
    assert SumTime([m]) == m.time by {
      assert [m][..0] == [];
    }
  }

  function SampleRows(): seq<Item> {
    [Row("a", 1), Row("b", 2), Row("c", 4)]
  }

  /** Picking the last row as primary after an earlier secondary throws,
      having already removed the secondary from the caller's array. */
  lemma MergeArrayShiftedPastEnd()
    ensures MergeArrayOutcome(SampleRows(), 0, 2)
         == Outcome(Err(ReadOfUndefined), [Row("b", 2), Row("c", 4)])
  {
    var s := SampleRows();
    var t := [Row("b", 2), Row("c", 4)];
    assert RemoveAt(s, 0) == t;
    assert SpliceOne(s, 0) == Spliced(Some(Row("a", 1)), t);
    assert SpliceOne(t, 2) == Spliced(None, t);
  }

  /** Picking the middle row as primary after the first merges the last
      row instead. */
  lemma MergeArrayShiftedToNext()
    ensures MergeArrayOutcome(SampleRows(), 0, 1).result
         == Ok([Row("b", 2), MergeItems(Row("c", 4), Row("a", 1))])
  {
    var s := SampleRows();
    var t := [Row("b", 2), Row("c", 4)];
    assert RemoveAt(s, 0) == t;
    assert SpliceOne(s, 0) == Spliced(Some(Row("a", 1)), t);
    assert RemoveAt(t, 1) == [Row("b", 2)];
    assert SpliceOne(t, 1) == Spliced(Some(Row("c", 4)), [Row("b", 2)]);
    assert [Row("b", 2)] + [MergeItems(Row("c", 4), Row("a", 1))]
        == [Row("b", 2), MergeItems(Row("c", 4), Row("a", 1))];
  }

  /** `mergeArrayItems` as evidently intended: the two chosen rows of the
      original array are removed (the later one first, so the earlier
      index stays valid) and their merge is appended. */
  function MergeArrayIntended(s: seq<Item>, secondaryIndex: nat, primaryIndex: nat): Outcome {
    if secondaryIndex == primaryIndex then Outcome(Ok(s), s)
    else if primaryIndex < secondaryIndex then
      var first := SpliceOne(s, secondaryIndex);
      var second := SpliceOne(first.rest, primaryIndex);
      if second.taken.None? || first.taken.None? then Outcome(Err(ReadOfUndefined), second.rest)
      else Outcome(Ok(second.rest + [MergeItems(second.taken.value, first.taken.value)]), second.rest)
    else
      var first := SpliceOne(s, primaryIndex);
      var second := SpliceOne(first.rest, secondaryIndex);
      if second.taken.None? || first.taken.None? then Outcome(Err(ReadOfUndefined), second.rest)
      else Outcome(Ok(second.rest + [MergeItems(first.taken.value, second.taken.value)]), second.rest)
  }

  method MergeArrayItemsIntended(items: ItemArray, secondaryIndex: nat, primaryIndex: nat)
    returns (r: Result<seq<Item>>)
    modifies items
    ensures r == MergeArrayIntended(old(items.elems), secondaryIndex, primaryIndex).result
    ensures items.elems == MergeArrayIntended(old(items.elems), secondaryIndex, primaryIndex).after
  {
    if secondaryIndex == primaryIndex {
      return Ok(items.elems);
    }
    var primary, secondary;
    if primaryIndex < secondaryIndex {
      secondary := items.Splice(secondaryIndex);
      primary := items.Splice(primaryIndex);
    } else {
      primary := items.Splice(primaryIndex);
      secondary := items.Splice(secondaryIndex);
    }
    if |primary| == 0 || |secondary| == 0 {
      return Err(ReadOfUndefined);
    }
    r := Ok(items.elems + [MergeItems(primary[0], secondary[0])]);
  }

  /** For distinct valid indices the intended merge removes exactly the two
      chosen rows, appends the primary merged with the secondary, returns
      one row fewer, and keeps the total time. */
  lemma MergeArrayIntendedSpec(s: seq<Item>, secondaryIndex: nat, primaryIndex: nat)
    requires secondaryIndex < |s| && primaryIndex < |s| && secondaryIndex != primaryIndex
    ensures var o := MergeArrayIntended(s, secondaryIndex, primaryIndex);
      && o.after == RemoveTwo(s, secondaryIndex, primaryIndex)
      && o.result == Ok(o.after + [MergeItems(s[primaryIndex], s[secondaryIndex])])
      && |o.result.value| == |s| - 1
      && SumTime(o.result.value) == SumTime(s)
  {
    var hi := if primaryIndex < secondaryIndex then secondaryIndex else primaryIndex;
    var lo := if primaryIndex < secondaryIndex then primaryIndex else secondaryIndex;
    assert RemoveAt(s, hi)[lo] == s[lo];
    MergedArrayTotal(s, secondaryIndex, primaryIndex);
  }

  /** The intended merge agrees with the code as written whenever the
      primary row comes first. */
  lemma MergeArrayIntendedAgrees(s: seq<Item>, secondaryIndex: nat, primaryIndex: nat)
    requires primaryIndex < secondaryIndex
    ensures MergeArrayIntended(s, secondaryIndex, primaryIndex)
         == MergeArrayOutcome(s, secondaryIndex, primaryIndex)
  {
  }
}
