/**
 * lib/toggl.js: parsing an issue key out of a time entry's description,
 * flattening a summary report into rows, grouping rows by issue key or
 * title, and building the report URL's query string.
 */
module Toggl {
  import opened Js
  import opened Records
  import opened Grouping
  import opened Util
  import opened Objects

  /** The configuration values the module reads. In lib/config.js as given,
      `TOGGL_GROUP` and `JIRA_DEFAULT_PREFIX` are not exported, so callers
      see `Undefined` for them. */
  datatype Settings = Settings(
    togglApiKey: JsValue,
    togglWorkspace: JsValue,
    togglGroup: JsValue,
    jiraDefaultPrefix: JsValue)

  // ---------------------------------------------------------------------
  // parseIssueKey
  // ---------------------------------------------------------------------

  /** The two regular expressions: `/APP-(\d+)/` and `/^(\d{3})/`. */
  datatype Pattern = AppKey | LeadingThreeDigits

  const Regexes: seq<Pattern> := [AppKey, LeadingThreeDigits]

  /** `/APP-(\d+)/` can start matching at index `i`. */
  predicate AppMatchAt(s: string, i: nat) {
    i + 5 <= |s| && s[i..i + 4] == "APP-" && IsDigit(s[i + 4])
  }

  /** The longest run of digits starting at `j` (`\d+` is greedy). */
  function DigitRun(s: string, j: nat): (d: string)
    requires j <= |s|
    decreases |s| - j
    ensures j + |d| <= |s| && d == s[j..j + |d|]
    ensures forall k :: 0 <= k < |d| ==> IsDigit(d[k])
    ensures j + |d| == |s| || !IsDigit(s[j + |d|])
  {
    if j < |s| && IsDigit(s[j]) then [s[j]] + DigitRun(s, j + 1) else ""
  }

  /** The digit run at `j` is exactly the `k` digits there when the
      character after them is not a digit. */
  lemma {:induction false} DigitRunExact(s: string, j: nat, k: nat)
    requires j + k <= |s|
    requires forall i :: j <= i < j + k ==> IsDigit(s[i])
    requires j + k == |s| || !IsDigit(s[j + k])
    ensures DigitRun(s, j) == s[j..j + k]
    decreases k
  {
    if k > 0 {
      DigitRunExact(s, j + 1, k - 1);
      assert s[j..j + k] == [s[j]] + s[j + 1..j + k];
    }
  }

  /** Where `/APP-(\d+)/` matches, searching from `from`: the regex engine
      tries each start position in turn and takes the first that matches. */
  function FindAppKey(s: string, from: nat): (r: Option<nat>)
    requires from <= |s|
    decreases |s| - from
    ensures r.Some? ==> from <= r.value <= |s| && AppMatchAt(s, r.value)
    ensures r.Some? ==> forall j :: from <= j < r.value ==> !AppMatchAt(s, j)
    ensures r.None? ==> forall j :: from <= j <= |s| ==> !AppMatchAt(s, j)
  {
    if AppMatchAt(s, from) then Some(from)
    else if from == |s| then None
    else FindAppKey(s, from + 1)
  }

  /** A match starts with the characters `APP-`. */
  lemma AppMatchChars(s: string, i: nat)
    ensures AppMatchAt(s, i) ==> s[i] == 'A' && s[i + 1] == 'P' && s[i + 2] == 'P' && s[i + 3] == '-'
  {
    if AppMatchAt(s, i) {
      assert s[i..i + 4] == "APP-";
      assert s[i..i + 4][0] == s[i] && s[i..i + 4][3] == s[i + 3];
      assert s[i..i + 4][1] == s[i + 1] && s[i..i + 4][2] == s[i + 2];
    }
  }

  /** `str.match(regex)`, reduced to the first capture group. */
  function MatchPattern(p: Pattern, s: string): Option<string> {
    match p
    case AppKey =>
      var at := FindAppKey(s, 0);
      if at.Some? then Some(DigitRun(s, at.value + 4)) else None
    case LeadingThreeDigits =>
      if |s| >= 3 && IsDigit(s[0]) && IsDigit(s[1]) && IsDigit(s[2]) then Some(s[..3]) else None
  }

  /** The `for..of` loop: the capture of the first pattern that matches. */
  function FirstMatch(patterns: seq<Pattern>, s: string): Option<string> {
    if patterns == [] then None
    else
      match MatchPattern(patterns[0], s)
      case Some(d) => Some(d)
      case None => FirstMatch(patterns[1..], s)
  }

  /** `parseIssueKey(str)`: the configured prefix, a dash and the digits the
      first matching pattern captured; `null` when no pattern matches. */
  function ParseIssueKey(str: string, prefix: JsValue): JsValue {
    match FirstMatch(Regexes, str)
    case Some(digits) => Str(ToStr(prefix) + "-" + digits)
    case None => Null
  }

  /** Patterns are tried in list order and the first that matches decides;
      there is no match exactly when no pattern matches. */
  lemma {:induction false} FirstMatchInOrder(patterns: seq<Pattern>, s: string, i: nat)
    requires i < |patterns|
    requires MatchPattern(patterns[i], s).Some?
    requires forall j :: 0 <= j < i ==> MatchPattern(patterns[j], s).None?
    ensures FirstMatch(patterns, s) == MatchPattern(patterns[i], s)
    decreases i
  {
    if i > 0 {
      FirstMatchInOrder(patterns[1..], s, i - 1);
    }
  }

  lemma {:induction false} FirstMatchNone(patterns: seq<Pattern>, s: string)
    ensures FirstMatch(patterns, s).None? <==>
      forall j :: 0 <= j < |patterns| ==> MatchPattern(patterns[j], s).None?
    decreases |patterns|
  {
    if patterns != [] {
      FirstMatchNone(patterns[1..], s);
      assert forall j :: 1 <= j < |patterns| ==> patterns[j] == patterns[1..][j - 1];
    }
  }

  /** Any occurrence of `APP-<digits>` yields the configured prefix with the
      digits of the first such occurrence, all of them. */
  lemma ParseAppKey(s: string, prefix: JsValue, i: nat)
    requires AppMatchAt(s, i)
    requires forall j :: 0 <= j < i ==> !AppMatchAt(s, j)
    ensures ParseIssueKey(s, prefix) == Str(ToStr(prefix) + "-" + DigitRun(s, i + 4))
  {
    var r := FindAppKey(s, 0);
    assert r == Some(i);
    FirstMatchInOrder(Regexes, s, 0);
  }

  /** Text that starts with three digits and holds no `APP-<digits>` yields
      the prefix and exactly those three digits, even when more follow. */
  lemma ParseLeadingDigits(s: string, prefix: JsValue)
    requires forall i :: 0 <= i <= |s| ==> !AppMatchAt(s, i)
    requires |s| >= 3 && IsDigit(s[0]) && IsDigit(s[1]) && IsDigit(s[2])
    ensures ParseIssueKey(s, prefix) == Str(ToStr(prefix) + "-" + s[..3])
  {
    FirstMatchInOrder(Regexes, s, 1);
  }

  /** Text matching neither pattern yields `null`, and only such text does. */
  lemma ParseNoMatch(s: string, prefix: JsValue)
    ensures ParseIssueKey(s, prefix) == Null <==>
      (forall i :: 0 <= i <= |s| ==> !AppMatchAt(s, i))
      && !(|s| >= 3 && IsDigit(s[0]) && IsDigit(s[1]) && IsDigit(s[2]))
  {
    FirstMatchNone(Regexes, s);
  }

  /** An `APP-` key at the start of the text. */
  lemma ParseExampleLeadingKey(a: string)
    requires a == "APP-123 fix login"
    ensures ParseIssueKey(a, Str("APP")) == Str("APP-123")
  {
    assert AppMatchAt(a, 0);
    DigitRunExact(a, 4, 3);
    assert a[4..7] == "123";
    ParseAppKey(a, Str("APP"), 0);
  }

  /** An `APP-` key inside the text takes the configured prefix. */
  lemma ParseExampleInnerKey(b: string)
    requires b == "pairing on APP-42"
    ensures ParseIssueKey(b, Str("ENG")) == Str("ENG-42")
  {
    assert AppMatchAt(b, 11);
    forall j | 0 <= j < 11 ensures !AppMatchAt(b, j) {
      AppMatchChars(b, j);
    }
    DigitRunExact(b, 15, 2);
    assert b[15..17] == "42";
    ParseAppKey(b, Str("ENG"), 11);
  }

  /** Leading digits: only the first three are kept. */
  lemma ParseExampleLeadingDigits(c: string)
    requires c == "1234 did the thing"
    ensures ParseIssueKey(c, Str("APP")) == Str("APP-123")
  {
    forall i | 0 <= i <= |c| ensures !AppMatchAt(c, i) {
      AppMatchChars(c, i);
    }
    ParseLeadingDigits(c, Str("APP"));
  }

  /** The general `LETTERS-digits` form is not recognised: only `APP-`. */
  lemma ParseExampleOtherProject(d: string)
    requires d == "XYZ-9 bug"
    ensures ParseIssueKey(d, Str("APP")) == Null
  {
    forall i | 0 <= i <= |d| ensures !AppMatchAt(d, i) {
      AppMatchChars(d, i);
    }
    ParseNoMatch(d, Str("APP"));
  }

  // ---------------------------------------------------------------------
  // Summary reports
  // ---------------------------------------------------------------------

  /** A time entry of a summary report: `title.time_entry` and `time`. */
  datatype SubItem = SubItem(timeEntry: string, time: nat)

  /** A project of a summary report: `title.project`, `time`, `items`. */
  datatype ProjectSummary = ProjectSummary(project: string, time: nat, items: seq<SubItem>)

  /** `{ title, time, issueKey: parseIssueKey(title) }` for one entry. */
  function EntryRow(sub: SubItem, prefix: JsValue): Item {
    Item(sub.timeEntry, sub.time, ParseIssueKey(sub.timeEntry, prefix), None, None, None)
  }

  function EntryRows(subs: seq<SubItem>, prefix: JsValue): (r: seq<Item>)
    ensures |r| == |subs|
  {
    seq(|subs|, i requires 0 <= i < |subs| => EntryRow(subs[i], prefix))
  }

  /** `getItemsFromSummaryReport`: every project's entries, flattened in order. */
  function GetItemsFromSummaryReport(data: seq<ProjectSummary>, settings: Settings): seq<Item> {
    if data == [] then []
    else EntryRows(data[0].items, settings.jiraDefaultPrefix) + GetItemsFromSummaryReport(data[1..], settings)
  }

  function EntryCount(data: seq<ProjectSummary>): nat {
    if data == [] then 0 else |data[0].items| + EntryCount(data[1..])
  }

  /** Flattening distributes over the projects, so the rows come project by
      project, each project's entries in order; there are as many rows as
      entries. */
  lemma {:induction false} ItemsFromSummaryConcat(d1: seq<ProjectSummary>, d2: seq<ProjectSummary>, settings: Settings)
    ensures GetItemsFromSummaryReport(d1 + d2, settings)
         == GetItemsFromSummaryReport(d1, settings) + GetItemsFromSummaryReport(d2, settings)
    ensures |GetItemsFromSummaryReport(d1, settings)| == EntryCount(d1)
    decreases |d1|
  {
    if d1 == [] {
      assert d1 + d2 == d2;
    } else {
      assert (d1 + d2)[1..] == d1[1..] + d2;
      ItemsFromSummaryConcat(d1[1..], d2, settings);
    }
  }

  /** `{ title: project.title.project, time: project.time }`. */
  function ProjectRows(data: seq<ProjectSummary>): (r: seq<Item>)
    ensures |r| == |data|
  {
    seq(|data|, i requires 0 <= i < |data| => Row(data[i].project, data[i].time))
  }

  /** `getProjectsFromSummaryReport`. */
  function GetProjectsFromSummaryReport(data: seq<ProjectSummary>): seq<Item> {
    SortItemsByTime(ProjectRows(data))
  }

  /** One row per project, largest time first. */
  lemma ProjectsFromSummarySorted(data: seq<ProjectSummary>)
    ensures var r := GetProjectsFromSummaryReport(data);
      && multiset(r) == multiset(ProjectRows(data))
      && NonIncreasing(r)
      && SumTime(r) == SumTime(ProjectRows(data))
  {
    SortItemsByTimeOrder(ProjectRows(data));
    SortSumTime(ProjectRows(data));
  }

  // ---------------------------------------------------------------------
  // groupAndSumItems
  // ---------------------------------------------------------------------

  /** `{...group[0], title: groupName, time: groupTotal}`. */
  function GroupRow(items: seq<Item>, k: string): Item
    requires k in DistinctKeys(items, IssueKeyOrTitle)
  {
    MergedRow(items, IssueKeyOrTitle, k).(title := k)
  }

  function GroupRows(items: seq<Item>): (rows: seq<Item>)
    ensures |rows| == |DistinctKeys(items, IssueKeyOrTitle)|
  {
    var ks := DistinctKeys(items, IssueKeyOrTitle);
    seq(|ks|, i requires 0 <= i < |ks| => GroupRow(items, ks[i]))
  }

  /** `groupAndSumItems`. */
  function GroupAndSumItems(items: seq<Item>): seq<Item> {
    SortItemsByTime(GroupRows(items))
  }

  /** Before sorting, there is a row for each key and each row is a key's. */
  lemma GroupRowsMembers(items: seq<Item>)
    ensures var ks := DistinctKeys(items, IssueKeyOrTitle);
      var rows := GroupRows(items);
      && (forall k :: k in ks ==> GroupRow(items, k) in rows)
      && (forall x :: x in rows ==> exists k :: k in ks && x == GroupRow(items, k))
  {
    var ks := DistinctKeys(items, IssueKeyOrTitle);
    var rows := GroupRows(items);
    forall k | k in ks ensures GroupRow(items, k) in rows {
      var i :| 0 <= i < |ks| && ks[i] == k;
      assert rows[i] == GroupRow(items, k);
    }
    forall x | x in rows ensures exists k :: k in ks && x == GroupRow(items, k) {
      var i :| 0 <= i < |rows| && rows[i] == x;
      assert ks[i] in ks;
    }
  }

  /** One row per distinct `issueKey || title`, titled by that key, carrying
      the group's first row's other fields and the group's total time; the
      rows are sorted non-increasingly and keep the overall total. */
  lemma GroupAndSumItemsRows(items: seq<Item>)
    ensures var ks := DistinctKeys(items, IssueKeyOrTitle);
      var r := GroupAndSumItems(items);
      && |r| == |ks|
      && (forall k :: k in ks ==> GroupRow(items, k) in r)
      && (forall x :: x in r ==> exists k :: k in ks && x == GroupRow(items, k))
      && (forall x :: x in r ==> x.title in ks)
      && NonIncreasing(r)
      && SumTime(r) == SumTime(items)
  {
    var rows := GroupRows(items);
    var r := GroupAndSumItems(items);
    SortItemsByTimeOrder(rows);
    assert forall x :: x in r <==> x in rows by {
      assert forall x :: x in r <==> x in multiset(r);
    }
    GroupRowsMembers(items);
    GroupRowsPreserveTotal(rows, items, IssueKeyOrTitle);
    SortSumTime(rows);
  }

  /** A group's row is its first member, retitled by the key and carrying
      the group's total time. */
  lemma GroupRowIsFirstWithSum(items: seq<Item>, i: nat)
    requires i < |items|
    requires forall j :: 0 <= j < i ==> IssueKeyOrTitle(items[j]) != IssueKeyOrTitle(items[i])
    ensures IssueKeyOrTitle(items[i]) in DistinctKeys(items, IssueKeyOrTitle)
    ensures var k := IssueKeyOrTitle(items[i]);
      GroupRow(items, k) == items[i].(title := k, time := SumTime(Group(items, IssueKeyOrTitle, k)))
  {
    MergedRowIsFirstWithSum(items, IssueKeyOrTitle, i);
  }

  // ---------------------------------------------------------------------
  // optionsToParams, getBaseUrl, getReport
  // ---------------------------------------------------------------------

  function DefaultParams(settings: Settings): seq<Prop> {
    [Prop("user_agent", Str("jiggl")),
     Prop("workspace_id", settings.togglWorkspace),
     Prop("members_of_group_ids", settings.togglGroup)]
  }

  function ParamPairs(props: seq<Prop>): (r: seq<string>)
    ensures |r| == |props|
  {
    seq(|props|, i requires 0 <= i < |props| => props[i].name + "=" + ToStr(props[i].value))
  }

  /** `optionsToParams(options)`, `options` being the object's own
      properties in order. */
  function OptionsToParams(settings: Settings, options: seq<Prop>): string {
    var withDefaults := Assign(DefaultParams(settings), options);
    var paramString := Join(ParamPairs(withDefaults), "&");
    if paramString != "" then "?" + paramString else ""
  }

  /** The query string always starts with `?` (the defaults are never
      empty), lists the defaults' names first, and gives every option's
      value priority over the default of the same name. */
  lemma OptionsToParamsSpec(settings: Settings, options: seq<Prop>, name: string)
    ensures var all := Assign(DefaultParams(settings), options);
      && OptionsToParams(settings, options) == "?" + Join(ParamPairs(all), "&")
      && Names(all)[..3] == ["user_agent", "workspace_id", "members_of_group_ids"]
      && Lookup(all, name) == (if Lookup(options, name).Some? then Lookup(options, name)
                               else Lookup(DefaultParams(settings), name))
  {
    var defaults := DefaultParams(settings);
    var all := Assign(defaults, options);
    assert Names(defaults) == ["user_agent", "workspace_id", "members_of_group_ids"];
    AssignLookup(defaults, options, name);
    var pairs := ParamPairs(all);
    assert |pairs| >= 3;
    assert Join(pairs, "&") == pairs[0] + "&" + Join(pairs[1..], "&");
    assert |pairs[0]| > 0 by {
      assert pairs[0] == all[0].name + "=" + ToStr(all[0].value);
    }
  }

  /** `getBaseUrl(reportType, options)`. */
  function BaseUrl(settings: Settings, reportType: string, options: seq<Prop>): string {
    "https://" + ToStr(settings.togglApiKey) + ":api_token@toggl.com/reports/api/v2/"
      + reportType + "/" + OptionsToParams(settings, options)
  }

  /** The URL `getReport(reportType, options)` fetches. */
  function ReportUrl(settings: Settings, reportType: string, options: seq<Prop>): string {
    BaseUrl(settings, "summary", options)
  }

  /** `getReport` asks for the summary report whatever type it is given. */
  lemma ReportUrlIgnoresType(settings: Settings, t1: string, t2: string, options: seq<Prop>)
    ensures ReportUrl(settings, t1, options) == ReportUrl(settings, t2, options)
    ensures ReportUrl(settings, t1, options) == BaseUrl(settings, "summary", options)
  {
  }
}
