# jiggl core, modelled in Dafny

jiggl turns Toggl time entries into reports annotated with Jira issues.
This project models the deterministic core of that pipeline and proves what
it promises:

- **Issue-key parsing and summary shaping** (`lib/toggl.js`):
  - `parseIssueKey` tries its two regular expressions in order. The first is
    an unanchored, greedy `APP-(\d+)`; the second is `^(\d{3})`. Each key is
    rebuilt with the configured prefix.
  - the flattening and sorting of a summary report;
  - `groupAndSumItems`;
  - the query string of `optionsToParams`, and the URL that `getReport` asks
    for.
- **Aggregation helpers** (`lib/util.js`): `mergeItems`, `sortItemsByTime`
  (a stable ascending sort, then reversed), `calculatePercentages`,
  `useIssueTitles` and `compose`.
- **Report editing** (`lib/reports.js`):
  - the two-item `mergeItems`;
  - `removeItemFromArray`;
  - `mergeArrayItems`, a method on an `ItemArray` class whose `Splice` method
    follows `Array.prototype.splice`, negative start included.
- **The issue cache and Jira lookups** (`lib/cache.js`, `lib/jira.js`):
  - the process-wide `Map` is a class holding its entries and its keys in
    insertion order;
  - `getIssue` reads that cache first, then falls back to a server object;
  - the server's answers are a fixed function of the request path, and the
    server logs every request;
  - `getIssuesForItems`, `replaceIssuesWithParents` and
    `replaceIssuesWithEpics` run the per-row lookups in order. The first
    failure decides the result.
- **The text builder** (`lib/doc.js`): the `Doc` class with `log`,
  `linebreak`, `title` and `get`, plus `underline`.
- **Report rendering** (`index.js`):
  - `cleanItems`;
  - the rows `printReport` shows;
  - the date-range heading;
  - the whole text of the detailed report, built through a `Doc`;
  - the users flagged as having entries to fix.
- **Validators and filters** (`db/util.js`, `lib/config.js`, `lib/log.js`):
  - unique-constraint errors are swallowed;
  - model fields are picked from an object;
  - the configuration is loaded from an environment map, with its
    required/optional check and its defaults;
  - dangerous configuration values are redacted from log messages.

JavaScript values are the `Js.JsValue` datatype. An object is the list of its
own properties in insertion order, and a lookup finds the last property of a
name. A report row is `Records.Item`. Its time is a whole number (`nat`).

The files follow the repository:
- `Js.dfy` and `Objects.dfy` hold the JavaScript and lodash building blocks.
- `Records.dfy` and `Grouping.dfy` hold the row type and `_.groupBy`.
- `Util.dfy`, `Toggl.dfy`, `Reports.dfy`, `Cache.dfy`, `Jira.dfy`, `Doc.dfy`,
  `Report.dfy` (index.js), `DbUtil.dfy`, `Config.dfy` and `Log.dfy` each
  model one source file.

## Model

| member | source | states |
|---|---|---|
| Grouping.DistinctKeysMembers | lib/util.js:57-58 | a key is listed by `groupBy` exactly when some item has it; `DistinctKeys` lists each key once |
| Grouping.GroupMembers | lib/util.js:57-59 | a group holds exactly the items whose merge key is the group's key |
| Grouping.GroupHead | lib/util.js:59-63 | the first item with a key is the first member of that key's group |
| Grouping.GroupRowsPreserveTotal | lib/util.js:58-60 | rows that each carry the summed time of one distinct key's group add up to the total time of all items |
| Util.SortItemsByTimeOrder | lib/util.js:70 | `sortItemsByTime` returns a permutation of its input that is non-increasing in time; items of equal time come out in reverse of their input order |
| Util.StableSortProperties | lib/util.js:70 | `_.sortBy` by time is ascending and keeps the input order among items of equal time |
| Util.SortSumTime | lib/util.js:70 | sorting keeps the total time |
| Util.MergeItemsRows | lib/util.js:55-67 | `mergeItems` has one row per distinct merge key (`item[mergeBy]`, or `issueKey \|\| title`); every row is the merged row of a key and every key's merged row is present; the rows are non-increasing in time and keep the total time |
| Util.MergedRowIsFirstWithSum | lib/util.js:59-64 | the merged row of a key is the first item with that key, carrying the sum of the group's times |
| Util.MergeItemsByTitleExample | lib/util.test.js:20-27 | merging the four alpha/beta items by `title` yields `{alpha, 3}` and `{beta, 7}` |
| Util.RoundHalfUpNearest | lib/util.js:79 | the rounded percentage is the integer nearest to the exact ratio, halves rounding up, as `Math.round` does for values that are not negative |
| Util.CalculatePercentagesSpec | lib/util.js:74-81 | every row keeps its other fields and position; the total is `passedTotal` when truthy, else the sum of times; a zero total gives `NaN`; otherwise the percent is the rounded `time / total * 100` |
| Util.PercentagesWithinRange | lib/util.js:74-81 | with the sum as total, each percentage lies between 0 and 100 |
| Util.ZeroPassedTotalFallsBack | lib/util.js:75-76 | a `passedTotal` of 0 is falsy and gives the same result as passing the sum |
| Util.CalculatePercentagesExample | lib/util.js:74-81 | times 1 and 3 give 25 and 75 percent |
| Util.UseIssueTitlesSpec | lib/util.js:45-48 | a row with an issue is retitled `"<issueKey> <summary>"` and otherwise unchanged; a row without one is unchanged; length and order are kept |
| Util.ComposeAppend | lib/util.js:83-84 | composing two lists of functions applies the first list, then the second |
| Util.ComposeTwo | lib/util.js:83-84 | `compose(f, g)(x)` is `g(f(x))`: left to right |
| Toggl.DigitRun | lib/toggl.js:47 | `\d+` takes the longest run of digits at its start |
| Toggl.FindAppKey | lib/toggl.js:47-53 | the unanchored `APP-\d` search finds the least index where it matches, or reports that it matches nowhere |
| Toggl.FirstMatchInOrder | lib/toggl.js:51-57 | the regexes are tried in list order, and the first that matches decides |
| Toggl.FirstMatchNone | lib/toggl.js:51-58 | nothing is found exactly when no regex matches |
| Toggl.ParseAppKey | lib/toggl.js:47-55 | the first `APP-<digits>` anywhere in the text gives `"<prefix>-<all those digits>"` with the configured prefix |
| Toggl.ParseLeadingDigits | lib/toggl.js:48-55 | text without `APP-<digit>` that starts with three digits gives the prefix and exactly those three digits |
| Toggl.ParseNoMatch | lib/toggl.js:51-58 | the result is `null` exactly when neither regex matches |
| Toggl.ParseExampleLeadingKey | lib/toggl.js:46-56 | `"APP-123 fix login"` parses to `APP-123` |
| Toggl.ParseExampleInnerKey | lib/toggl.js:46-56 | `"pairing on APP-42"` with prefix `ENG` parses to `ENG-42` |
| Toggl.ParseExampleLeadingDigits | lib/toggl.js:46-56 | `"1234 did the thing"` parses to `APP-123` |
| Toggl.ParseExampleOtherProject | lib/toggl.js:46-58 | `"XYZ-9 bug"` parses to `null` |
| Toggl.ItemsFromSummaryConcat | lib/toggl.js:83-92 | the entries of a report are the entries of each project in order; their number is the sum of the sub-item counts |
| Toggl.ProjectsFromSummarySorted | lib/toggl.js:72-79 | the project rows are a permutation of one row per project, non-increasing in time, with the same total |
| Toggl.GroupAndSumItemsRows | lib/toggl.js:95-107 | one row per distinct `issueKey \|\| title`, titled by its key; every key's row is present; the rows are non-increasing in time and keep the total time |
| Toggl.GroupRowIsFirstWithSum | lib/toggl.js:97-105 | a key's row is the first item with that key, retitled by the key, with the group's summed time |
| Toggl.OptionsToParamsSpec | lib/toggl.js:13-30 | the query string starts with `?`; the default names come first; an option's value overrides the default of the same name |
| Toggl.ReportUrlIgnoresType | lib/toggl.js:36-42 | `getReport` asks for the `summary` URL whatever report type it is given |
| Objects.AssignLookup | lib/toggl.js:20-23 | after object spread, a name has the source's value if the source has one, and otherwise the target's; names stay unique |
| Reports.AddPercent | lib/reports.js:86-88 | the summed percent is a number only when both percents are numbers; `undefined` makes it `NaN` |
| Reports.MergeItemsSpec | lib/reports.js:82-90 | the merge keeps the primary's title and sums the times; a percent is present exactly when the primary has one, and is then summed; every other field is dropped |
| Reports.RemoveItemFromArraySpec | lib/reports.js:105-108 | an index in range removes exactly that element and keeps the order; an index past the end returns a copy |
| Reports.SpliceOne | lib/reports.js:95-96 | `splice(start, 1)` removes one element exactly when the relative start is in range, and otherwise leaves the array as it was |
| Reports.ItemArray.Splice | lib/reports.js:95-96 | splicing changes the array in place to what `SpliceOne` leaves and returns what it removed |
| Reports.MergeArrayItems | lib/reports.js:93-102 | the in-place method returns, and leaves the caller's array as, the outcome of `mergeArrayItems` as written |
| Reports.MergeArraySameIndex | lib/reports.js:94 | equal indices return an unchanged copy and leave the array alone |
| Reports.MergeArrayAsWritten | lib/reports.js:95-101 | for distinct indices, the primary is taken from the already-shortened array; the call fails exactly when the primary index was the last one |
| Reports.MergeArrayPrimaryFirst | lib/reports.js:95-101 | when the primary comes before the secondary, both chosen rows are removed, the merged row is appended, and the total time is kept |
| Reports.MergeArrayShiftedPastEnd | lib/reports.js:95-96 | `[a, b, c]` with secondary 0 and primary 2 reads past the end: the call fails, and the caller's array keeps only `[b, c]` |
| Reports.MergeArrayShiftedToNext | lib/reports.js:95-96 | `[a, b, c]` with secondary 0 and primary 1 merges `c` instead of `b` |
| Reports.MergeArrayItemsIntended | lib/reports.js:93-102 | the corrected in-place merge returns, and leaves the array as, the corrected outcome |
| Reports.MergeArrayIntendedSpec | lib/reports.js:93-102 | the corrected merge removes exactly the two chosen rows and appends their merge; its length is n-1, and it keeps the total time |
| Reports.MergeArrayIntendedAgrees | lib/reports.js:95-101 | when the primary comes first, the corrected merge and the merge as written agree |
| Cache.SaveKeepsValid | lib/cache.js:5 | a save keeps each key listed once and the listed keys equal to the stored ones |
| Cache.SaveThenGet | lib/cache.js:4-5 | after a save, the saved key gets the saved issue and every other key gets what it got before |
| Cache.SaveAllGet | lib/cache.js:1-5 | from an empty cache, a key never saved gets `undefined`, and a key gets the last issue saved under it |
| Cache.SaveAllKeys | lib/cache.js:1-6 | the keys are listed once each, in the order they were first saved |
| Cache.IssueCache.constructor | lib/cache.js:1 | a new cache is empty |
| Cache.IssueCache.GetIssueFromCache | lib/cache.js:4 | `get` finds an issue exactly when the key is stored |
| Cache.IssueCache.SaveIssueToCache | lib/cache.js:5 | `set` updates the stored state as `CacheSave` does, keeps the cache well formed, and the key then gets the issue |
| Cache.IssueCache.GetCachedIssueKeys | lib/cache.js:6 | the keys are listed once each, and exactly the stored ones |
| Jira.ParseIssueDefaults | lib/jira.js:20-30 | every field but `epic` defaults to `null` (and `labels` to `[]`) instead of `undefined`; `epic` is `undefined` exactly when its path is missing; `labels` reads the path `field.labels` |
| Jira.ParseIssueExample | lib/jira.js:20-30 | a sample payload parses field by field, `labels` falling back to `[]` |
| Jira.IssueServer.Request | lib/jira.js:32 | a request returns the server's answer for the path and is logged |
| Jira.GetIssue | lib/jira.js:34-52 | the method's result, cache and request log are those of `GetIssueSpec` |
| Jira.GetIssueCases | lib/jira.js:34-52 | a cache hit makes no request; on a miss the one request `issue/<key>` is made; a failure gives `null` and keeps the cache; a success is parsed, saved under its own key and returned |
| Jira.GetIssueKeepsCache | lib/jira.js:34-52 | `getIssue` keeps the cache well formed and never loses a key |
| Jira.GetIssueTwice | lib/jira.js:35-45 | a second `getIssue` for a key the first one fetched is answered from the cache without a request |
| Jira.ProcessItems | lib/jira.js:56-69 | the per-row loop returns, caches and logs what the row-by-row specification `Process` does |
| Jira.ProcessRows | lib/jira.js:56-69 | without an error there is one row per item, each computed with the cache as the earlier rows left it |
| Jira.ProcessHalts | lib/jira.js:93-102 | a callback that throws stops the mapping; later rows make no request, and its error is the result |
| Jira.NotHaltedWithoutThrow | lib/jira.js:93-102 | the mapping runs to the end when no callback throws |
| Jira.ProcessLookupFails | lib/jira.js:56-69 | a lookup that gives `null` makes the whole mapping fail |
| Jira.ProcessErrorStays | lib/jira.js:56-69 | an error once raised is the result of the whole mapping |
| Jira.ProcessKeepsCache | lib/jira.js:56-69 | the mapping keeps the cache well formed and never loses a key |
| Jira.GetIssuesForItems | lib/jira.js:56-69 | `getIssuesForItems` over the shared cache and server |
| Jira.GetIssuesForItemsSpec | lib/jira.js:56-69 | length and order are kept; a row without an issue key is unchanged; otherwise it gets the issue and the issue's key |
| Jira.GetIssuesForItemsFails | lib/jira.js:59-64 | a key whose lookup gives `null` fails with reading `key` of `null` |
| Jira.NullKeyOnly | lib/jira.js:59-64 | reading `key` of `null` is the only way it fails |
| Jira.ReplaceIssuesWithParents | lib/jira.js:71-90 | `replaceIssuesWithParents` over the shared cache and server: the result, the cache and the request log are those of the sequential lookups with `ParentsStep` |
| Jira.ReplaceIssuesWithParentsSpec | lib/jira.js:75-86 | a row without an issue or a parent is unchanged; otherwise it becomes `{title, time, issueKey: parent.key, issue: parent}` with only those fields, the title being the text of `parent.key` |
| Jira.ReplaceIssuesWithEpics | lib/jira.js:93-114 | `replaceIssuesWithEpics` over the shared cache and server: the result, the cache and the request log are those of the sequential lookups with `EpicsStep` |
| Jira.ReplaceIssuesWithEpicsSpec | lib/jira.js:96-111 | a row without an epic is retitled `No Epic` with a `null` key, other fields kept; otherwise it becomes `{title, time, issueKey: epic.key, issue: epic}` with only those fields, the title being the text of `epic.summary` |
| Jira.ReplaceIssuesWithEpicsNeedsIssue | lib/jira.js:96 | a row without an issue throws on reading `epic`, after only the earlier rows' requests |
| Doc.Underline | lib/doc.js:3 | the underline has the text's length; every character but a line terminator becomes the fill |
| Doc.Doc.constructor | lib/doc.js:5-7 | a new document is empty |
| Doc.Doc.Log | lib/doc.js:14-16 | `log` appends the line and a newline, so the old text is a prefix of the new text |
| Doc.Doc.Linebreak | lib/doc.js:18-21 | the counting loop appends exactly `num` newlines |
| Doc.Doc.Title | lib/doc.js:9-12 | `title` appends the text and an `=` underline; the fill argument is ignored |
| Doc.Doc.Get | lib/doc.js:23-25 | `get` returns the text |
| Report.CleanItemsSpec | index.js:36-41 | each row keeps only its title, time and percent, in order; the total time is kept, and cleaning twice changes nothing |
| Report.ShownItemsSpec | index.js:45-49 | a count of 0 shows every cleaned row; a positive count shows that many first rows, or all when there are fewer |
| Report.DateRangeSpec | index.js:85 | the range is `since` alone exactly when `since` equals `until`, and otherwise `"since - until"` |
| Report.ProjectNameSpec | index.js:101-103 | a missing or empty project is `NO PROJECT`; one leading `Dev - ` is stripped, and any other name is kept |
| Report.RowRules | index.js:96-107 | after retitling, a row is flagged exactly when it lacks a project or has neither an issue nor a title; a row's title is `[key] summary`, `* title` or `* NO DESCRIPTION` |
| Report.RenderUser | index.js:93-109 | one user's heading, `-` underline, row lines and blank line are appended, and the user is flagged if a row needs fixing |
| Report.LogRows | index.js:96-108 | one line per row is appended in order, and the user is added to the flagged list (once) exactly when one of the rows needs fixing |
| Report.RenderUsers | index.js:92-110 | every user's section is appended in order, and the flagged users are collected |
| Report.LogClosing | index.js:111-119 | the closing section is appended line by line |
| Report.LogFixSection | index.js:110-119 | the closing section is logged exactly when some user is flagged, and nothing is logged otherwise |
| Report.RenderDetailed | index.js:83-120 | the document's final text is the title block, every user's section and the closing section; the flagged list is `FlaggedUsers` |
| Report.AnyProblemSpec | index.js:96-108 | a user has a problem exactly when one of their rows needs fixing |
| Report.FlaggedUsersSpec | index.js:91-108 | a user is flagged exactly when one of their rows needs fixing, and each flagged user is listed once |
| Report.FixSectionPresent | index.js:111 | the closing section appears exactly when some user is flagged |
| Report.FixMessageSpec | index.js:114-118 | one flagged user gives `"<user> has entries with no description or project"`; several give their names joined with ` & ` and `have`; one more flagged user adds ` & <user>` after the others and the verb becomes `have` |
| Js.JoinSnoc | index.js:115 | `join` with a separator: one more part adds the separator and that part at the end |
| DbUtil.IgnoreUniqueErrorsSpec | db/util.js:5-9 | a unique-constraint error is swallowed, leaving `undefined`; any other error is thrown again unchanged |
| DbUtil.PickLookup | db/util.js:16-18 | `_.pick` keeps exactly the picked paths the object has, with the object's values, each once |
| DbUtil.PickOrder | db/util.js:16-18 | the picked names follow the order of the paths |
| DbUtil.DefinedFieldsOnlySpec | db/util.js:12-18 | `definedFieldsOnly` keeps exactly the model's fields that the object has, with the object's values |
| DbUtil.GetModelSpec | db/util.js:21 | `getModel` returns the first element of a `findOrCreate` pair |
| Config.PickEnvLookup | lib/config.js:25 | picking from the environment keeps exactly the listed variables that are set, with their values |
| Config.DefaultsLookup | lib/config.js:26-35 | `_.defaults` keeps a set value and fills in the source's value where the value is unset |
| Config.LoadConfigFails | lib/config.js:37-40 | loading fails exactly when a required variable is not set; the message names exactly the variables that are not set |
| Config.LoadConfigMissingExample | lib/config.js:37-39 | the missing names follow the required list's order, joined by `, ` |
| Config.OptionalValuesLookup | lib/config.js:26-35 | an optional variable has its value, or else its default (`localhost`, `UTC` or `null`) |
| Config.LoadConfigValues | lib/config.js:25-45 | a loaded configuration holds every required variable's value, every optional one's value or default, and nothing else |
| Log.ReplaceKeysUnchanged | lib/log.js:7 | a message containing none of the dangerous values comes back unchanged |
| Log.ReplaceKeysAppend | lib/log.js:7 | the keys are applied in list order |
| Log.ReplaceOneKey | lib/log.js:7 | a key replaces only the first occurrence of its value; the text before it has no occurrence, and the rest is kept |
| Log.SanitiseDangerousKeysSpec | lib/log.js:7 | an `undefined` message is treated as `''`; a text message has the keys replaced; any other message throws once there is a key to replace |
| Log.SanitiseMessageSpec | lib/log.js:8-11 | only the `message` field changes, and it takes the sanitised value |

## Left out

- Time is a whole number. The floating-point arithmetic of `msToHours` and `twoDP` is not modelled, and a row's time is printed as that number.
- `calculatePercentages` counts by `time` only, not by other `countBy` fields.
- `Math.round` is modelled for values that are not negative. Times are never negative.
- `Promise.all` runs its callbacks concurrently. The model runs the per-row lookups one after another. Overlapping cache misses for one key are not captured, and the rejection that wins is the first in row order.
- HTTP is not modelled. That covers `lib/fetch.js`, `request` and `getSummary`. The Jira server is an object whose answers are a fixed function of the request path, and Toggl is not contacted.
- `getIssue`'s branch where `remote` is falsy cannot be reached, because `parseIssue` always returns an object.
- `lodash.get` reads through object properties only, not through array indices or string characters.
- A `Map` key is compared by value. JavaScript compares object keys by identity, and keys here are strings or `null`.
- `_.groupBy` keys follow the order in which they first occur. JavaScript lists integer-like keys first, in numeric order.
- `underline` fills with one character. The source also accepts a longer fill string.
- Strings are sequences of characters. UTF-16 surrogate pairs are not modelled.
- ReplaceIssuesWithParents: a row's `title` is a string, so the new row's title is the text of `parent.key` (`Jira.ParentsStep`). The source copies the value itself; a `null` or numeric key stays `null` or a number there. The model turns it into `"null"` or digits, and a later `!item.title` test would see a truthy title where the source sees a falsy `null`.
- ReplaceIssuesWithParentsSpec: states the title as the text of `parent.key`, for the reason above. It is exactly `parent.key` only when that key is a string.
- ReplaceIssuesWithEpics: likewise, the new row's title is the text of `epic.summary` (`Jira.EpicsStep`). A missing summary, which `parseIssue` defaults to `null`, becomes the text `"null"` rather than staying `null`.
- ReplaceIssuesWithEpicsSpec: states the title as the text of `epic.summary`, for the reason above. It is exactly `epic.summary` only when the summary is a string.
- `Doc.Doc.Linebreak`: the count is a `nat`. For a negative count, the source's `while (num--)` loop never stops.
- `Doc.Underline`: the fill is a single character.
- `Report.RenderDetailed`: the rows already carry their issues. The source's first loop calls `getIssuesForItems` for each user (index.js:78-81); that lookup is modelled by `Jira.GetIssuesForItems`.
- The final `doc.print()` (index.js:122) calls a method `Doc` does not have. It is not modelled.
- `printReport` writes to the console. The model keeps only the rows it shows and its heading lines. The default of 10 rows is a caller's choice.
- Interactive prompts and menus are not modelled: `pickItem`, `removeMergeCancel`, `isDone`, `editReport` and the index.js menus.
- `chooseItemForMerge` passes its own `primaryIndex` as `mergeArrayItems`'s secondary index. Only `mergeArrayItems` itself is modelled.
- `Reports.MergeArrayItemsIntended` takes `nat` indices. The as-written `Reports.MergeArrayItems` keeps JavaScript's relative (negative) indices.
- The date helpers (`lastMonth`, `lastBusinessDay`, `formatTogglDate`) and `processSummary` are not modelled. They read the clock or prompt the user.
- lib/config.js does not export `__dangerousKeys`, `TOGGL_GROUP` or `JIRA_DEFAULT_PREFIX`, which lib/log.js and lib/toggl.js read. They are parameters: the dangerous keys of `Log`, and `Toggl.Settings`.
- dotenv, `process.env`, winston and logform are not modelled. The environment is a map, and the log format is the function on the info object.
- `Log.SanitiseDangerousKeysSpec`: a non-string message is assumed to have no `replace` method. An object message with its own `replace` is not modelled.
- `DbUtil.PickLookup`: paths are plain property names. lodash's deep paths (`a.b`) and inherited properties are not modelled.
- Sequelize, the database models, lib/methods.js, sync.js and cli.js are not modelled. They orchestrate the database and HTTP calls.

## Findings

| source | as written | input that shows it | evidently intended | confidence | as-written member | corrected member |
|---|---|---|---|---|---|---|
| lib/reports.js:95-96 | the second `splice` uses `primaryIndex` on the array the first `splice` already shortened | `[a, b, c]` with secondary 0 and primary 2 reads past the end, so `mergeItems(undefined, a)` throws and the array is left as `[b, c]`; with primary 1, `c` is merged instead of `b` | remove both chosen rows from the original positions and append the merge of the primary with the secondary | not executed | Reports.MergeArrayShiftedPastEnd | Reports.MergeArrayIntendedSpec |
