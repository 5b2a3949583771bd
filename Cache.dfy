/**
 * lib/cache.js: the process-wide issue cache, a `Map` from issue key to
 * issue. A `Map` remembers the order in which its keys were first set.
 */
module Cache {
  import opened Js
  import opened Records
  import opened Grouping

  /** The contents of the `Map`: its entries, and its keys in insertion order. */
  datatype CacheState = CacheState(entries: map<JsValue, Issue>, order: seq<JsValue>)

  const EmptyCache := CacheState(map[], [])

  /** Every key is listed once, and exactly the keys with an entry are listed. */
  ghost predicate Valid(c: CacheState) {
    NoDuplicates(c.order) && forall k :: k in c.entries <==> k in c.order
  }

  /** `ISSUE_CACHE.get(issueKey)`; `None` is `undefined`. */
  function CacheGet(c: CacheState, key: JsValue): Option<Issue> {
    if key in c.entries then Some(c.entries[key]) else None
  }

  /** `ISSUE_CACHE.set(issue.key, issue)`: a key already present keeps its
      place in the order; a new key goes last. */
  function CacheSave(c: CacheState, issue: Issue): CacheState {
    CacheState(c.entries[issue.key := issue],
      if issue.key in c.entries then c.order else c.order + [issue.key])
  }

  /** `Array.from(ISSUE_CACHE.keys())`. */
  function CacheKeys(c: CacheState): seq<JsValue> {
    c.order
  }

  /** Saving keeps the cache well formed. */
  lemma SaveKeepsValid(c: CacheState, issue: Issue)
    requires Valid(c)
    ensures Valid(CacheSave(c, issue))
  {
    var r := CacheSave(c, issue);
    if issue.key !in c.entries {
      forall i, j | 0 <= i < j < |r.order| ensures r.order[i] != r.order[j] {
        if j == |c.order| {
          assert r.order[i] == c.order[i];
        }
      }
    }
  }

  /** After a save, the saved issue is what its key looks up; every other
      key looks up what it did before. */
  lemma SaveThenGet(c: CacheState, issue: Issue, key: JsValue)
    ensures CacheGet(CacheSave(c, issue), issue.key) == Some(issue)
    ensures key != issue.key ==> CacheGet(CacheSave(c, issue), key) == CacheGet(c, key)
  {
  }

  /** Saves in sequence. */
  function SaveAll(c: CacheState, issues: seq<Issue>): CacheState {
    if issues == [] then c else CacheSave(SaveAll(c, issues[..|issues| - 1]), issues[|issues| - 1])
  }

  /** Each key once, at its first occurrence. */
  function FirstOccurrences(keys: seq<JsValue>): seq<JsValue> {
    if keys == [] then []
    else
      var init := FirstOccurrences(keys[..|keys| - 1]);
      if keys[|keys| - 1] in init then init else init + [keys[|keys| - 1]]
  }

  function KeysOf(issues: seq<Issue>): (ks: seq<JsValue>)
    ensures |ks| == |issues|
  {
    seq(|issues|, i requires 0 <= i < |issues| => issues[i].key)
  }

  /** No issue after the `i`-th has its key. */
  predicate LastWithKey(issues: seq<Issue>, i: nat)
    requires i < |issues|
  {
    forall j :: i < j < |issues| ==> issues[j].key != issues[i].key
  }

  /** Starting from an empty cache, a key looks up the last issue saved
      under it, and nothing when it was never saved. */
  lemma {:induction false} SaveAllGet(issues: seq<Issue>, key: JsValue)
    ensures CacheGet(SaveAll(EmptyCache, issues), key).None? <==>
      forall j :: 0 <= j < |issues| ==> issues[j].key != key
    ensures forall i :: 0 <= i < |issues| && issues[i].key == key && LastWithKey(issues, i) ==>
      CacheGet(SaveAll(EmptyCache, issues), key) == Some(issues[i])
    decreases |issues|
  {
    if issues != [] {
      var n := |issues| - 1;
      var init := issues[..n];
      var prev := SaveAll(EmptyCache, init);
      assert SaveAll(EmptyCache, issues) == CacheSave(prev, issues[n]);
      assert forall j :: 0 <= j < n ==> init[j] == issues[j];
      SaveAllGet(init, key);
      SaveThenGet(prev, issues[n], key);
      forall i | 0 <= i < |issues| && issues[i].key == key && LastWithKey(issues, i)
        ensures CacheGet(SaveAll(EmptyCache, issues), key) == Some(issues[i])
      {
        if i < n {
          assert issues[n].key != key;
          assert LastWithKey(init, i);
        }
      }
    }
  }

  /** Starting from an empty cache, the keys are listed once each, in the
      order they were first saved. */
  lemma {:induction false} SaveAllKeys(issues: seq<Issue>)
    ensures CacheKeys(SaveAll(EmptyCache, issues)) == FirstOccurrences(KeysOf(issues))
    ensures Valid(SaveAll(EmptyCache, issues))
    decreases |issues|
  {
    if issues != [] {
      var n := |issues| - 1;
      SaveAllKeys(issues[..n]);
      assert KeysOf(issues)[..n] == KeysOf(issues[..n]);
      SaveKeepsValid(SaveAll(EmptyCache, issues[..n]), issues[n]);
    }
  }

  /** The process-wide `ISSUE_CACHE`. */
  class IssueCache {
    var entries: map<JsValue, Issue>
    var order: seq<JsValue>

    function State(): CacheState
      reads this
    {
      CacheState(entries, order)
    }

    constructor ()
      ensures State() == EmptyCache
    {
      entries := map[];
      order := [];
    }

    /** `getIssueFromCache(issueKey)`. */
    method GetIssueFromCache(key: JsValue) returns (r: Option<Issue>)
      ensures r == CacheGet(State(), key)
      ensures r.Some? <==> key in entries
    {
      if key in entries {
        r := Some(entries[key]);
      } else {
        r := None;
      }
    }

    /** `saveIssueToCache(issue)`. */
    method SaveIssueToCache(issue: Issue)
      modifies this
      ensures State() == CacheSave(old(State()), issue)
      ensures old(Valid(State())) ==> Valid(State())
      ensures CacheGet(State(), issue.key) == Some(issue)
    {
      if Valid(State()) {
        SaveKeepsValid(State(), issue);
      }
      if issue.key !in entries {
        order := order + [issue.key];
      }
      entries := entries[issue.key := issue];
    }

    /** `getCachedIssueKeys()`. */
    method GetCachedIssueKeys() returns (keys: seq<JsValue>)
      ensures keys == CacheKeys(State())
      ensures Valid(State()) ==> NoDuplicates(keys) && forall k :: k in keys <==> k in entries
    {
      keys := order;
    }
  }
}
