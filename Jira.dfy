/**
 * lib/jira.js: shaping an issue-tracker payload into an `Issue`, the
 * read-through `getIssue` over the process-wide cache, and the per-row
 * mappings that attach issues to rows or replace rows by their parent or
 * epic issue. The server is an oracle from request path to response; the
 * rows are processed one after another.
 */
module Jira {
  import opened Js
  import opened Records
  import opened Cache

  // ---------------------------------------------------------------------
  // parseIssue
  // ---------------------------------------------------------------------

  /** lodash `get(v, path)` without a default: `undefined` as soon as the
      path leaves the objects. */
  function GetPath(v: JsValue, path: seq<string>): JsValue
    decreases |path|
  {
    if path == [] then v
    else if v.Obj? && Lookup(v.props, path[0]).Some? then GetPath(Lookup(v.props, path[0]).value, path[1..])
    else Undefined
  }

  /** lodash `get(v, path, default)`: the default replaces only `undefined`. */
  function GetOr(v: JsValue, path: seq<string>, default: JsValue): (r: JsValue)
    ensures r.Undefined? ==> default.Undefined?
  {
    var found := GetPath(v, path);
    if found.Undefined? then default else found
  }

  /** `parseIssue(issue)`. */
  function ParseIssue(payload: JsValue): Issue {
    Issue(
      GetOr(payload, ["key"], Null),
      GetOr(payload, ["fields", "issuetype", "name"], Null),
      GetOr(payload, ["fields", "status", "name"], Null),
      GetOr(payload, ["fields", "summary"], Null),
      GetOr(payload, ["fields", "assignee", "name"], Null),
      GetOr(payload, ["fields", "parent", "key"], Null),
      GetOr(payload, ["field", "labels"], Arr([])),
      GetPath(payload, ["fields", "customfield_10014"]),
      GetOr(payload, ["fields", "customfield_10011"], Null))
  }

  /** Every field but `epic` has a default, so only `epic` can be
      `undefined`; `labels` is read from `field.labels`, so a payload without
      a `field` property gets no labels whatever `fields.labels` holds. */
  lemma ParseIssueDefaults(payload: JsValue)
    ensures var i := ParseIssue(payload);
      && !i.key.Undefined? && !i.issueType.Undefined? && !i.status.Undefined?
      && !i.summary.Undefined? && !i.assignee.Undefined? && !i.parent.Undefined?
      && !i.labels.Undefined? && !i.epicTitle.Undefined?
      && (i.epic.Undefined? <==> GetPath(payload, ["fields", "customfield_10014"]).Undefined?)
    ensures !payload.Obj? || Lookup(payload.props, "field").None? ==> ParseIssue(payload).labels == Arr([])
  {
  }

  /** A payload in the server's shape. */
  function SamplePayload(): JsValue {
    Obj([
      Prop("key", Str("APP-7")),
      Prop("fields", Obj([
        Prop("summary", Str("Fix login")),
        Prop("labels", Arr([Str("web")])),
        Prop("parent", Obj([Prop("key", Str("APP-1"))])),
        Prop("assignee", Null)]))])
  }

  /** Present fields are read at their paths; a `null` stays `null`; a
      missing field gets its default; the labels under `fields` are not
      the ones read. */
  lemma ParseIssueExample()
    ensures ParseIssue(SamplePayload())
         == Issue(Str("APP-7"), Null, Null, Str("Fix login"), Null, Str("APP-1"), Arr([]), Undefined, Null)
  {
    var top := SamplePayload().props;
    LookupLast(top, 1);
    var props := Lookup(top, "fields").value.props;
    LookupLast(top, 0);
    LookupMissing(top, "field");
    LookupLast(props, 0);
    LookupLast(props, 2);
    LookupLast(props, 3);
    LookupMissing(props, "issuetype");
    LookupMissing(props, "status");
    LookupMissing(props, "customfield_10014");
    LookupMissing(props, "customfield_10011");
    LookupLast(props[2].value.props, 0);
  }

  // ---------------------------------------------------------------------
  // getIssue
  // ---------------------------------------------------------------------

  /** A response of the server: the parsed JSON body, or a failure (a
      network error or a response that is not ok). */
  datatype FetchResult = Fetched(payload: JsValue) | FetchFailed

  /** The issue tracker, answering each request path with `respond`. */
  class IssueServer {
    const respond: string -> FetchResult
    var requests: seq<string>

    constructor (respond: string -> FetchResult)
      ensures this.respond == respond && requests == []
    {
      this.respond := respond;
      requests := [];
    }

    /** `request(url)`: logs the path and returns the response. */
    method Request(path: string) returns (r: FetchResult)
      modifies this
      ensures r == respond(path)
      ensures requests == old(requests) + [path]
    {
      requests := requests + [path];
      r := respond(path);
    }
  }

  function IssuePath(key: JsValue): string {
    "issue/" + ToStr(key)
  }

  /** The result of `getIssue`, the cache after it, and the paths it requested. */
  datatype Fetch = Fetch(issue: Option<Issue>, cache: CacheState, fetched: seq<string>)

  /** `getIssue(issueKey)`; `None` is `null`. A parsed issue is an object,
      so the remote result is always truthy. */
  function GetIssueSpec(c: CacheState, respond: string -> FetchResult, key: JsValue): Fetch {
    match CacheGet(c, key)
    case Some(cached) => Fetch(Some(cached), c, [])
    case None =>
      match respond(IssuePath(key))
      case FetchFailed => Fetch(None, c, [IssuePath(key)])
      case Fetched(payload) =>
        var issue := ParseIssue(payload);
        Fetch(Some(issue), CacheSave(c, issue), [IssuePath(key)])
  }

  method GetIssue(cache: IssueCache, server: IssueServer, issueKey: JsValue) returns (r: Option<Issue>)
    modifies cache, server
    ensures var f := GetIssueSpec(old(cache.State()), server.respond, issueKey);
      && r == f.issue
      && cache.State() == f.cache
      && server.requests == old(server.requests) + f.fetched
  {
    var cached := cache.GetIssueFromCache(issueKey);
    if cached.Some? {
      return cached;
    }
    var response := server.Request(IssuePath(issueKey));
    match response
    case FetchFailed =>
      r := None;
    case Fetched(payload) =>
      var remote := ParseIssue(payload);
      cache.SaveIssueToCache(remote);
      r := Some(remote);
  }

  /** A cache hit is returned without a request; a miss makes exactly one
      request, and then a failure gives `null` and leaves the cache alone,
      while a success caches the parsed issue under its own key and
      returns it. */
  lemma GetIssueCases(c: CacheState, respond: string -> FetchResult, key: JsValue)
    ensures var f := GetIssueSpec(c, respond, key);
      && (CacheGet(c, key).Some? ==> f == Fetch(CacheGet(c, key), c, []))
      && (CacheGet(c, key).None? ==> f.fetched == [IssuePath(key)])
      && (CacheGet(c, key).None? && respond(IssuePath(key)).FetchFailed? ==> f.issue.None? && f.cache == c)
      && (CacheGet(c, key).None? && respond(IssuePath(key)).Fetched? ==>
            && f.issue == Some(ParseIssue(respond(IssuePath(key)).payload))
            && f.cache == CacheSave(c, f.issue.value)
            && CacheGet(f.cache, f.issue.value.key) == f.issue)
  {
  }

  /** `getIssue` keeps the cache well formed and never forgets a key. */
  lemma GetIssueKeepsCache(c: CacheState, respond: string -> FetchResult, key: JsValue)
    requires Valid(c)
    ensures Valid(GetIssueSpec(c, respond, key).cache)
    ensures forall k :: k in c.entries ==> k in GetIssueSpec(c, respond, key).cache.entries
  {
    match CacheGet(c, key)
    case Some(_) =>
    case None =>
      match respond(IssuePath(key))
      case FetchFailed =>
      case Fetched(payload) => SaveKeepsValid(c, ParseIssue(payload));
  }

  /** Asking again for an issue that was found under the key it was asked
      for is a cache hit: the same issue, no request, the cache unchanged. */
  lemma GetIssueTwice(c: CacheState, respond: string -> FetchResult, key: JsValue)
    requires GetIssueSpec(c, respond, key).issue.Some?
    requires GetIssueSpec(c, respond, key).issue.value.key == key
    ensures var f := GetIssueSpec(c, respond, key);
      GetIssueSpec(f.cache, respond, key) == Fetch(f.issue, f.cache, [])
  {
    var f := GetIssueSpec(c, respond, key);
    if CacheGet(c, key).None? {
      SaveThenGet(c, f.issue.value, key);
    }
  }

  // ---------------------------------------------------------------------
  // Mapping rows through getIssue
  // ---------------------------------------------------------------------

  /** What the mapping callback does with one row: return a row as it is,
      look an issue up and build a row from it (reading a property of
      `null` when the lookup gives `null`), or throw at once. */
  datatype Step =
    | Keep(row: Item)
    | LookUp(key: JsValue, build: Issue -> Item, nullError: string)
    | Throw(message: string)

  /** Rows mapped so far, the error the combined promise rejects with, and
      whether a callback threw (after which `map` calls no more callbacks). */
  datatype Batch = Batch(
    rows: seq<Item>,
    error: Option<string>,
    halted: bool,
    cache: CacheState,
    fetched: seq<string>)

  /** One row's callback. A lookup that gives `null` rejects later, so the
      earliest such rejection is kept; a throw inside `map` rejects the
      whole call at once with its own error. */
  function Advance(b: Batch, respond: string -> FetchResult, step: Step): Batch {
    if b.halted then b
    else
      match step
      case Keep(row) => b.(rows := b.rows + [row])
      case Throw(message) => b.(error := Some(message), halted := true)
      case LookUp(key, build, nullError) =>
        var f := GetIssueSpec(b.cache, respond, key);
        if f.issue.Some? then
          b.(rows := b.rows + [build(f.issue.value)], cache := f.cache, fetched := b.fetched + f.fetched)
        else
          b.(error := if b.error.Some? then b.error else Some(nullError), cache := f.cache,
             fetched := b.fetched + f.fetched)
  }

  /** `Promise.all(items.map(callback))`, one row after another. */
  function Process(c: CacheState, respond: string -> FetchResult, items: seq<Item>, stepOf: Item -> Step): Batch {
    if items == [] then Batch([], None, false, c, [])
    else Advance(Process(c, respond, items[..|items| - 1], stepOf), respond, stepOf(items[|items| - 1]))
  }

  function Outcome(b: Batch): Result<seq<Item>> {
    if b.error.Some? then Err(b.error.value) else Ok(b.rows)
  }

  /** The row a callback produces in cache state `c`, if it produces one. */
  function StepRow(c: CacheState, respond: string -> FetchResult, step: Step): Option<Item> {
    match step
    case Keep(row) => Some(row)
    case Throw(_) => None
    case LookUp(key, build, _) =>
      var f := GetIssueSpec(c, respond, key);
      if f.issue.Some? then Some(build(f.issue.value)) else None
  }

  /** A step depends on the requests made before it only by appending to them. */
  lemma AdvanceFetched(b: Batch, respond: string -> FetchResult, step: Step)
    ensures var a := Advance(b.(fetched := []), respond, step);
      Advance(b, respond, step) == a.(fetched := b.fetched + a.fetched)
  {
    if !b.halted && step.LookUp? {
      var f := GetIssueSpec(b.cache, respond, step.key);
      assert [] + f.fetched == f.fetched;
    }
  }

  /** One row's callback, run against the shared cache and server. */
  method RunStep(cache: IssueCache, server: IssueServer, step: Step,
                 rows0: seq<Item>, error0: Option<string>, halted0: bool)
    returns (rows: seq<Item>, error: Option<string>, halted: bool)
    modifies cache, server
    ensures var b := Advance(Batch(rows0, error0, halted0, old(cache.State()), []), server.respond, step);
      && rows == b.rows && error == b.error && halted == b.halted
      && cache.State() == b.cache
      && server.requests == old(server.requests) + b.fetched
  {
    rows, error, halted := rows0, error0, halted0;
    if !halted {
      match step
      case Keep(row) =>
        rows := rows + [row];
      case Throw(message) =>
        error := Some(message);
        halted := true;
      case LookUp(key, build, nullError) =>
        var issue := GetIssue(cache, server, key);
        if issue.Some? {
          rows := rows + [build(issue.value)];
        } else if error.None? {
          error := Some(nullError);
        }
    }
  }

  method ProcessItems(cache: IssueCache, server: IssueServer, items: seq<Item>, stepOf: Item -> Step)
    returns (r: Result<seq<Item>>)
    modifies cache, server
    ensures var b := Process(old(cache.State()), server.respond, items, stepOf);
      && r == Outcome(b)
      && cache.State() == b.cache
      && server.requests == old(server.requests) + b.fetched
  {
    var rows: seq<Item> := [];
    var error: Option<string> := None;
    var halted := false;
    var i := 0;
    while i < |items|
      invariant 0 <= i <= |items|
      invariant var b := Process(old(cache.State()), server.respond, items[..i], stepOf);
        && rows == b.rows && error == b.error && halted == b.halted
        && cache.State() == b.cache
        && server.requests == old(server.requests) + b.fetched
    {
      ghost var prev := Process(old(cache.State()), server.respond, items[..i], stepOf);
      assert items[..i + 1][..i] == items[..i];
      assert Process(old(cache.State()), server.respond, items[..i + 1], stepOf)
          == Advance(prev, server.respond, stepOf(items[i]));
      AdvanceFetched(prev, server.respond, stepOf(items[i]));
      assert Batch(rows, error, halted, cache.State(), []) == prev.(fetched := []);
      rows, error, halted := RunStep(cache, server, stepOf(items[i]), rows, error, halted);
      i := i + 1;
    }
    assert items[..|items|] == items;
    r := if error.Some? then Err(error.value) else Ok(rows);
  }

  /** An error, once recorded, stays; a halt is always an error. */
  lemma {:induction false} ProcessErrorStays(c: CacheState, respond: string -> FetchResult, items: seq<Item>, stepOf: Item -> Step, k: nat)
    requires k <= |items|
    ensures Process(c, respond, items, stepOf).halted ==> Process(c, respond, items, stepOf).error.Some?
    ensures Process(c, respond, items[..k], stepOf).error.Some? ==> Process(c, respond, items, stepOf).error.Some?
    decreases |items|
  {
    if items != [] {
      var n := |items| - 1;
      if k <= n {
        assert items[..k] == items[..n][..k];
      } else {
        assert items[..k] == items;
      }
      ProcessErrorStays(c, respond, items[..n], stepOf, if k <= n then k else n);
    }
  }

  /** A callback that leaves no error produced a row, appended last. */
  lemma AdvanceRow(b: Batch, respond: string -> FetchResult, step: Step)
    requires !b.halted && b.error.None? && Advance(b, respond, step).error.None?
    ensures StepRow(b.cache, respond, step).Some?
    ensures Advance(b, respond, step).rows == b.rows + [StepRow(b.cache, respond, step).value]
  {
  }

  /** Without an error, the last row's callback produced the last row. */
  lemma ProcessLastRow(c: CacheState, respond: string -> FetchResult, items: seq<Item>, stepOf: Item -> Step)
    requires items != [] && Process(c, respond, items, stepOf).error.None?
    ensures var n := |items| - 1;
      var prev := Process(c, respond, items[..n], stepOf);
      && prev.error.None?
      && StepRow(prev.cache, respond, stepOf(items[n])).Some?
      && Process(c, respond, items, stepOf).rows == prev.rows + [StepRow(prev.cache, respond, stepOf(items[n])).value]
  {
    var n := |items| - 1;
    var prev := Process(c, respond, items[..n], stepOf);
    ProcessErrorStays(c, respond, items, stepOf, n);
    ProcessErrorStays(c, respond, items[..n], stepOf, n);
    assert items[..n][..n] == items[..n];
    AdvanceRow(prev, respond, stepOf(items[n]));
  }

  /** Without an error, every row's callback produced a row, computed in
      the cache state the earlier rows left behind. */
  lemma {:induction false} ProcessRows(c: CacheState, respond: string -> FetchResult, items: seq<Item>, stepOf: Item -> Step)
    requires Process(c, respond, items, stepOf).error.None?
    ensures |Process(c, respond, items, stepOf).rows| == |items|
    ensures forall i :: 0 <= i < |items| ==>
      StepRow(Process(c, respond, items[..i], stepOf).cache, respond, stepOf(items[i]))
        == Some(Process(c, respond, items, stepOf).rows[i])
    decreases |items|
  {
    if items != [] {
      var n := |items| - 1;
      var whole := Process(c, respond, items, stepOf);
      var prev := Process(c, respond, items[..n], stepOf);
      ProcessLastRow(c, respond, items, stepOf);
      ProcessRows(c, respond, items[..n], stepOf);
      forall i | 0 <= i < |items|
        ensures StepRow(Process(c, respond, items[..i], stepOf).cache, respond, stepOf(items[i]))
             == Some(whole.rows[i])
      {
        if i < n {
          assert items[..n][..i] == items[..i];
          assert items[..n][i] == items[i];
          assert whole.rows[i] == prev.rows[i];
        } else {
          assert items[..i] == items[..n];
        }
      }
    }
  }

  /** A throwing callback rejects the call with its own error, and no row
      after it is looked up. */
  lemma {:induction false} ProcessHalts(c: CacheState, respond: string -> FetchResult, items: seq<Item>, stepOf: Item -> Step, i: nat)
    requires i < |items| && stepOf(items[i]).Throw?
    requires forall j :: 0 <= j < i ==> !stepOf(items[j]).Throw?
    ensures var b := Process(c, respond, items, stepOf);
      && b.halted
      && b.error == Some(stepOf(items[i]).message)
      && b.cache == Process(c, respond, items[..i], stepOf).cache
      && b.fetched == Process(c, respond, items[..i], stepOf).fetched
    decreases |items|
  {
    var n := |items| - 1;
    if i < n {
      assert items[..n][i] == items[i];
      assert forall j :: 0 <= j < i ==> items[..n][j] == items[j];
      ProcessHalts(c, respond, items[..n], stepOf, i);
      assert items[..n][..i] == items[..i];
    } else {
      assert items[..n] == items[..i];
      NotHaltedWithoutThrow(c, respond, items[..i], stepOf);
    }
  }

  lemma {:induction false} NotHaltedWithoutThrow(c: CacheState, respond: string -> FetchResult, items: seq<Item>, stepOf: Item -> Step)
    requires forall j :: 0 <= j < |items| ==> !stepOf(items[j]).Throw?
    ensures !Process(c, respond, items, stepOf).halted
    decreases |items|
  {
    if items != [] {
      var n := |items| - 1;
      assert forall j :: 0 <= j < n ==> items[..n][j] == items[j];
      NotHaltedWithoutThrow(c, respond, items[..n], stepOf);
    }
  }

  /** When no callback throws, a lookup that gives `null` rejects the call. */
  lemma ProcessLookupFails(c: CacheState, respond: string -> FetchResult, items: seq<Item>, stepOf: Item -> Step, i: nat)
    requires i < |items|
    requires forall j :: 0 <= j < |items| ==> !stepOf(items[j]).Throw?
    requires StepRow(Process(c, respond, items[..i], stepOf).cache, respond, stepOf(items[i])).None?
    ensures Process(c, respond, items, stepOf).error.Some?
  {
    assert items[..i + 1][..i] == items[..i];
    assert forall j :: 0 <= j < i ==> items[..i][j] == items[j];
    NotHaltedWithoutThrow(c, respond, items[..i], stepOf);
    ProcessErrorStays(c, respond, items, stepOf, i + 1);
  }

  /** The cache stays well formed and keeps every key it had. */
  lemma {:induction false} ProcessKeepsCache(c: CacheState, respond: string -> FetchResult, items: seq<Item>, stepOf: Item -> Step)
    requires Valid(c)
    ensures Valid(Process(c, respond, items, stepOf).cache)
    ensures forall k :: k in c.entries ==> k in Process(c, respond, items, stepOf).cache.entries
    decreases |items|
  {
    if items != [] {
      var n := |items| - 1;
      var prev := Process(c, respond, items[..n], stepOf);
      ProcessKeepsCache(c, respond, items[..n], stepOf);
      if !prev.halted && stepOf(items[n]).LookUp? {
        GetIssueKeepsCache(prev.cache, respond, stepOf(items[n]).key);
      }
    }
  }

  const NullKeyError := "TypeError: Cannot read property 'key' of null"
  const NullSummaryError := "TypeError: Cannot read property 'summary' of null"
  const UndefinedEpicError := "TypeError: Cannot read property 'epic' of undefined"

  /** `getIssuesForItems`' callback: a row with a truthy `issueKey` gets its
      issue attached and its `issueKey` reset to the issue's key. */
  function IssuesStep(item: Item): Step {
    if Truthy(item.issueKey) then
      LookUp(item.issueKey, (issue: Issue) => item.(issueKey := issue.key, issue := Some(issue)), NullKeyError)
    else Keep(item)
  }

  /** `replaceIssuesWithParents`' callback. */
  function ParentsStep(item: Item): Step {
    if item.issue.None? || !Truthy(item.issue.value.parent) then Keep(item)
    else
      LookUp(item.issue.value.parent,
        (parent: Issue) => Item(ToStr(parent.key), item.time, parent.key, Some(parent), None, None),
        NullKeyError)
  }

  /** `replaceIssuesWithEpics`' callback; it reads `issue.issue.epic`
      without checking that the row has an issue. */
  function EpicsStep(item: Item): Step {
    if item.issue.None? then Throw(UndefinedEpicError)
    else if !Truthy(item.issue.value.epic) then Keep(item.(title := "No Epic", issueKey := Null))
    else
      LookUp(item.issue.value.epic,
        (epic: Issue) => Item(ToStr(epic.summary), item.time, epic.key, Some(epic), None, None),
        NullSummaryError)
  }

  method GetIssuesForItems(cache: IssueCache, server: IssueServer, items: seq<Item>)
    returns (r: Result<seq<Item>>)
    modifies cache, server
    ensures var b := Process(old(cache.State()), server.respond, items, IssuesStep);
      r == Outcome(b) && cache.State() == b.cache && server.requests == old(server.requests) + b.fetched
  {
    r := ProcessItems(cache, server, items, IssuesStep);
  }

  method ReplaceIssuesWithParents(cache: IssueCache, server: IssueServer, items: seq<Item>)
    returns (r: Result<seq<Item>>)
    modifies cache, server
    ensures var b := Process(old(cache.State()), server.respond, items, ParentsStep);
      r == Outcome(b) && cache.State() == b.cache && server.requests == old(server.requests) + b.fetched
  {
    r := ProcessItems(cache, server, items, ParentsStep);
  }

  method ReplaceIssuesWithEpics(cache: IssueCache, server: IssueServer, items: seq<Item>)
    returns (r: Result<seq<Item>>)
    modifies cache, server
    ensures var b := Process(old(cache.State()), server.respond, items, EpicsStep);
      r == Outcome(b) && cache.State() == b.cache && server.requests == old(server.requests) + b.fetched
  {
    r := ProcessItems(cache, server, items, EpicsStep);
  }

  /** The issue `getIssue` gives for the `i`-th row's key, in the cache
      state the earlier rows left behind. */
  function IssueAt(c: CacheState, respond: string -> FetchResult, items: seq<Item>, stepOf: Item -> Step, i: nat, key: JsValue): Option<Issue>
    requires i <= |items|
  {
    GetIssueSpec(Process(c, respond, items[..i], stepOf).cache, respond, key).issue
  }

  /** `getIssuesForItems` keeps length and order; rows without a truthy
      `issueKey` pass through; the others carry their issue, with
      `issueKey` reset to the issue's key. */
  lemma GetIssuesForItemsSpec(c: CacheState, respond: string -> FetchResult, items: seq<Item>, i: nat)
    requires Outcome(Process(c, respond, items, IssuesStep)).Ok?
    requires i < |items|
    ensures var rows := Outcome(Process(c, respond, items, IssuesStep)).value;
      && |rows| == |items|
      && (!Truthy(items[i].issueKey) ==> rows[i] == items[i])
      && (Truthy(items[i].issueKey) ==>
            var issue := IssueAt(c, respond, items, IssuesStep, i, items[i].issueKey);
            issue.Some? && rows[i] == items[i].(issueKey := issue.value.key, issue := issue))
  {
    ProcessRows(c, respond, items, IssuesStep);
  }

  /** A row with a truthy `issueKey` whose lookup gives `null` rejects the
      whole call. */
  lemma GetIssuesForItemsFails(c: CacheState, respond: string -> FetchResult, items: seq<Item>, i: nat)
    requires i < |items| && Truthy(items[i].issueKey)
    requires IssueAt(c, respond, items, IssuesStep, i, items[i].issueKey).None?
    ensures Outcome(Process(c, respond, items, IssuesStep)) == Err(NullKeyError)
  {
    ProcessLookupFails(c, respond, items, IssuesStep, i);
    NullKeyOnly(c, respond, items);
  }

  lemma {:induction false} NullKeyOnly(c: CacheState, respond: string -> FetchResult, items: seq<Item>)
    ensures Process(c, respond, items, IssuesStep).error.Some? ==>
      Process(c, respond, items, IssuesStep).error == Some(NullKeyError)
    decreases |items|
  {
    if items != [] {
      NullKeyOnly(c, respond, items[..|items| - 1]);
    }
  }

  /** `replaceIssuesWithParents` leaves rows without an issue or a parent
      unchanged and replaces the others by a row built from the parent
      issue alone. */
  lemma ReplaceIssuesWithParentsSpec(c: CacheState, respond: string -> FetchResult, items: seq<Item>, i: nat)
    requires Outcome(Process(c, respond, items, ParentsStep)).Ok?
    requires i < |items|
    ensures var rows := Outcome(Process(c, respond, items, ParentsStep)).value;
      && |rows| == |items|
      && (items[i].issue.None? || !Truthy(items[i].issue.value.parent) ==> rows[i] == items[i])
      && (items[i].issue.Some? && Truthy(items[i].issue.value.parent) ==>
            var parent := IssueAt(c, respond, items, ParentsStep, i, items[i].issue.value.parent);
            parent.Some? && rows[i] == Item(ToStr(parent.value.key), items[i].time, parent.value.key, parent, None, None))
  {
    ProcessRows(c, respond, items, ParentsStep);
  }

  /** `replaceIssuesWithEpics` renames rows without an epic to `No Epic`
      with a `null` key, keeping their other fields, and replaces the
      others by a row built from the epic issue alone. */
  lemma ReplaceIssuesWithEpicsSpec(c: CacheState, respond: string -> FetchResult, items: seq<Item>, i: nat)
    requires Outcome(Process(c, respond, items, EpicsStep)).Ok?
    requires i < |items|
    ensures var rows := Outcome(Process(c, respond, items, EpicsStep)).value;
      && |rows| == |items|
      && items[i].issue.Some?
      && (!Truthy(items[i].issue.value.epic) ==> rows[i] == items[i].(title := "No Epic", issueKey := Null))
      && (Truthy(items[i].issue.value.epic) ==>
            var epic := IssueAt(c, respond, items, EpicsStep, i, items[i].issue.value.epic);
            epic.Some? && rows[i] == Item(ToStr(epic.value.summary), items[i].time, epic.value.key, epic, None, None))
  {
    ProcessRows(c, respond, items, EpicsStep);
  }

  /** A row without an issue makes `replaceIssuesWithEpics` throw, and the
      rows after the first such row are never looked up. */
  lemma ReplaceIssuesWithEpicsNeedsIssue(c: CacheState, respond: string -> FetchResult, items: seq<Item>, i: nat)
    requires i < |items| && items[i].issue.None?
    requires forall j :: 0 <= j < i ==> items[j].issue.Some?
    ensures Outcome(Process(c, respond, items, EpicsStep)) == Err(UndefinedEpicError)
    ensures Process(c, respond, items, EpicsStep).fetched == Process(c, respond, items[..i], EpicsStep).fetched
  {
    ProcessHalts(c, respond, items, EpicsStep, i);
  }
}
