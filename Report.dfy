/**
 * index.js: the report-rendering rules — cleaning rows for display, the
 * number of rows a report shows, the date-range heading, and the detailed
 * report's text with its list of users whose entries need fixing.
 */
module Report {
  import opened Js
  import opened Records
  import opened Grouping
  import opened Util
  import Objects
  import Doc

  // ---------------------------------------------------------------------
  // cleanItems, printReport
  // ---------------------------------------------------------------------

  /** `cleanItems`: each row reduced to its title, time and percentage. */
  function CleanItems(items: seq<Item>): (r: seq<Item>)
    ensures |r| == |items|
  {
    seq(|items|, i requires 0 <= i < |items| => Item(items[i].title, items[i].time, Undefined, None, items[i].percent, None))
  }

  /** Cleaning keeps length, order, titles, times and percentages, drops
      every other field, keeps the total time, and cleaning again changes
      nothing. */
  lemma CleanItemsSpec(items: seq<Item>)
    ensures var r := CleanItems(items);
      && (forall i :: 0 <= i < |items| ==>
            && r[i].title == items[i].title && r[i].time == items[i].time && r[i].percent == items[i].percent
            && r[i].issueKey == Undefined && r[i].issue.None? && r[i].project.None?)
      && CleanItems(r) == r
      && SumTime(r) == SumTime(items)
  {
    CleanKeepsTotal(items);
  }

  lemma {:induction false} CleanKeepsTotal(items: seq<Item>)
    ensures SumTime(CleanItems(items)) == SumTime(items)
    decreases |items|
  {
    if items != [] {
      var n := |items| - 1;
      CleanKeepsTotal(items[..n]);
      assert CleanItems(items)[..n] == CleanItems(items[..n]);
    }
  }

  /** The rows `printReport(title, report, numItems)` shows: a count of 0
      is falsy and shows them all. */
  function ShownItems(report: seq<Item>, numItems: int): seq<Item> {
    Slice(CleanItems(report), 0, if numItems == 0 then |report| else numItems)
  }

  /** The heading lines `printReport` logs before the rows. */
  function ReportHeading(title: string, report: seq<Item>, numItems: int): seq<string> {
    [title, Doc.Underline(title), "Showing first " + IntToString(numItems) + " of " + NatToString(|report|)]
  }

  /** A count of 0 shows every row; a positive count shows that many first
      rows, or all when there are fewer. */
  lemma ShownItemsSpec(report: seq<Item>, numItems: int)
    ensures numItems == 0 ==> ShownItems(report, numItems) == CleanItems(report)
    ensures numItems > 0 ==>
      ShownItems(report, numItems) == CleanItems(report)[..if numItems < |report| then numItems else |report|]
  {
    assert CleanItems(report)[..|report|] == CleanItems(report);
  }

  // ---------------------------------------------------------------------
  // Headings
  // ---------------------------------------------------------------------

  /** The date range of a report's heading. */
  function DateRange(since: string, until: string): string {
    if since == until then since else since + " - " + until
  }

  /** A single day is named once; a range names both ends. */
  lemma DateRangeSpec(since: string, until: string)
    ensures DateRange(since, until) == since <==> since == until
    ensures since != until ==> DateRange(since, until) == since + " - " + until
  {
    if since != until {
      assert |DateRange(since, until)| > |since|;
    }
  }

  function SummaryTitle(since: string, until: string): string {
    "Toggl Summary " + DateRange(since, until)
  }

  // ---------------------------------------------------------------------
  // The rows of the detailed report
  // ---------------------------------------------------------------------

  /** The title a row is printed under. */
  function RowTitle(item: Item): string {
    if item.issue.Some? then "[" + ToStr(item.issue.value.key) + "] " + ToStr(item.issue.value.summary)
    else "* " + (if item.title != "" then item.title else "NO DESCRIPTION")
  }

  /** A project name is present when it is a non-empty string. */
  predicate HasProject(project: Option<string>) {
    project.Some? && project.value != ""
  }

  /** The project's name with a leading `Dev - ` removed, or `NO PROJECT`. */
  function ProjectName(project: Option<string>): string {
    if !HasProject(project) then "NO PROJECT"
    else if StartsWith(project.value, "Dev - ") then project.value[6..]
    else project.value
  }

  lemma ProjectNameSpec(project: Option<string>)
    ensures !HasProject(project) ==> ProjectName(project) == "NO PROJECT"
    ensures HasProject(project) && StartsWith(project.value, "Dev - ") ==>
      "Dev - " + ProjectName(project) == project.value
    ensures HasProject(project) && !StartsWith(project.value, "Dev - ") ==> ProjectName(project) == project.value
  {
    if HasProject(project) && StartsWith(project.value, "Dev - ") {
      assert project.value == project.value[..6] + project.value[6..];
    }
  }

  /** The printed line of a row. The time is printed with two decimals at
      most, which for whole times is the time itself. */
  function ItemLine(item: Item): string {
    RowTitle(item) + " - " + NatToString(item.time) + " (" + ProjectName(item.project) + ")"
  }

  /** A row needs fixing when it has no project or no title. */
  predicate HasProblem(item: Item) {
    !HasProject(item.project) || item.title == ""
  }

  /** After `useIssueTitles`, a row with an issue always has a title, so a
      row is flagged exactly when it lacks a project or has neither an
      issue nor a description; and a row without an issue and without a
      description is printed as `* NO DESCRIPTION`. */
  lemma RowRules(item: Item)
    ensures var shown := item.(title := IssueTitle(item));
      && (HasProblem(shown) <==> !HasProject(item.project) || (item.issue.None? && item.title == ""))
      && (item.issue.Some? ==>
            RowTitle(shown) == "[" + ToStr(item.issue.value.key) + "] " + ToStr(item.issue.value.summary))
      && (item.issue.None? && item.title == "" ==> RowTitle(shown) == "* NO DESCRIPTION")
      && (item.issue.None? && item.title != "" ==> RowTitle(shown) == "* " + item.title)
  {
    if item.issue.Some? {
      var t := IssueTitle(item);
      assert t[|ToStr(item.issueKey)|] == ' ';
    }
  }

  // ---------------------------------------------------------------------
  // processDetailed
  // ---------------------------------------------------------------------

  /** One user's part of a detailed report. */
  datatype UserSummary = UserSummary(user: string, time: nat, items: seq<Item>)

  function UserHeading(u: UserSummary): string {
    u.user + ": " + NatToString(u.time)
  }

  function ItemsText(items: seq<Item>): string {
    if items == [] then "" else ItemsText(items[..|items| - 1]) + ItemLine(items[|items| - 1]) + "\n"
  }

  /** A user's heading, its `-` underline, one line per row, a blank line. */
  function UserSection(u: UserSummary): string {
    var heading := UserHeading(u);
    heading + "\n" + Doc.Underline(heading, '-') + "\n" + ItemsText(UseIssueTitles(u.items)) + "\n"
  }

  function UsersText(users: seq<UserSummary>): string {
    if users == [] then "" else UsersText(users[..|users| - 1]) + UserSection(users[|users| - 1])
  }

  function AnyProblem(items: seq<Item>): bool {
    items != [] && (AnyProblem(items[..|items| - 1]) || HasProblem(items[|items| - 1]))
  }

  /** `Set.prototype.add`: a name already present keeps its place. */
  function AddUser(flagged: seq<string>, name: string): seq<string> {
    if name in flagged then flagged else flagged + [name]
  }

  /** `usersWithProblems`, in the order the `Set` iterates it. */
  function FlaggedUsers(users: seq<UserSummary>): seq<string> {
    if users == [] then []
    else
      var init := FlaggedUsers(users[..|users| - 1]);
      var u := users[|users| - 1];
      if AnyProblem(UseIssueTitles(u.items)) then AddUser(init, u.user) else init
  }

  const FixHeading := "Entries needing fixing"

  /** The verb, with the space before it, agrees with the number of users. */
  function Verb(count: nat): string {
    if count == 1 then " has" else " have"
  }

  const FixTail := " entries with no description or project"

  /** The closing message: the flagged users joined with ` & `, then the verb. */
  function FixMessage(flagged: seq<string>): string {
    Join(flagged, " & ") + Verb(|flagged|) + FixTail
  }

  /** A blank line, an underlined heading and a message. */
  function Closing(heading: string, message: string): string {
    "\n" + heading + "\n" + Doc.Underline(heading) + "\n" + message + "\n"
  }

  /** The closing section, present only when some user is flagged. */
  function FixSection(flagged: seq<string>): string {
    if flagged == [] then "" else Closing(FixHeading, FixMessage(flagged))
  }

  /** An underlined title followed by a blank line. */
  function TitleBlock(title: string): string {
    title + "\n" + Doc.Underline(title) + "\n" + "\n"
  }

  /** The text the detailed report's document holds at its end. */
  function DetailedText(since: string, until: string, users: seq<UserSummary>): string {
    TitleBlock(SummaryTitle(since, until)) + UsersText(users) + FixSection(FlaggedUsers(users))
  }

  /** Regrouping the text a run of `log` calls appends. */
  lemma AppendLines(t: string, a: string, b: string, c: string)
    ensures t + a + "\n" + b + "\n" + c + "\n" == t + (a + "\n" + b + "\n" + c + "\n")
  {
  }

  lemma AppendText(t: string, a: string, b: string)
    ensures t + a + b == t + (a + b)
  {
  }

  lemma AppendLine(t: string, a: string, b: string)
    ensures t + a + b + "\n" == t + (a + b + "\n")
  {
  }

  /** One more row adds its line and may raise a problem. */
  lemma RowStep(items: seq<Item>, j: nat)
    requires j < |items|
    ensures ItemsText(items[..j + 1]) == ItemsText(items[..j]) + ItemLine(items[j]) + "\n"
    ensures AnyProblem(items[..j + 1]) == (AnyProblem(items[..j]) || HasProblem(items[j]))
  {
    assert items[..j + 1][..j] == items[..j];
  }

  /** Flagging a user again changes nothing. */
  lemma FlagStep(problems0: seq<string>, user: string, before: bool, row: bool)
    ensures var p := if before then AddUser(problems0, user) else problems0;
      (if row then AddUser(p, user) else p)
        == if before || row then AddUser(problems0, user) else problems0
  {
    assert user in AddUser(problems0, user);
  }

  /** Logs one line per row; `problems` gains `user` when a row needs
      fixing. */
  method LogRows(doc: Doc.Doc, items: seq<Item>, user: string, problems0: seq<string>) returns (problems: seq<string>)
    modifies doc
    ensures doc.text == old(doc.text) + ItemsText(items)
    ensures problems == if AnyProblem(items) then AddUser(problems0, user) else problems0
  {
    var start := doc.text;
    problems := problems0;
    var j := 0;
    while j < |items|
      invariant 0 <= j <= |items|
      invariant doc.text == start + ItemsText(items[..j])
      invariant problems == if AnyProblem(items[..j]) then AddUser(problems0, user) else problems0
    {
      doc.Log(ItemLine(items[j]));
      if HasProblem(items[j]) {
        problems := AddUser(problems, user);
      }
      RowStep(items, j);
      FlagStep(problems0, user, AnyProblem(items[..j]), HasProblem(items[j]));
      AppendLine(start, ItemsText(items[..j]), ItemLine(items[j]));
      j := j + 1;
    }
    assert items[..|items|] == items;
  }

  /** One user's section, logged to `doc`; `problems` gains the user when
      one of their rows needs fixing. */
  method RenderUser(doc: Doc.Doc, us: UserSummary, problems0: seq<string>) returns (problems: seq<string>)
    modifies doc
    ensures doc.text == old(doc.text) + UserSection(us)
    ensures problems == if AnyProblem(UseIssueTitles(us.items)) then AddUser(problems0, us.user) else problems0
  {
    var t0 := doc.text;
    var heading := UserHeading(us);
    doc.Log(heading);
    doc.Log(Doc.Underline(heading, '-'));
    var items := UseIssueTitles(us.items);
    problems := LogRows(doc, items, us.user, problems0);
    doc.Linebreak();
    assert Doc.Newlines(1) == "\n";
    AppendLines(t0, heading, Doc.Underline(heading, '-'), ItemsText(items));
  }

  /** Logs `TitleBlock(title)` to `doc`. */
  method LogTitleBlock(doc: Doc.Doc, title: string)
    modifies doc
    ensures doc.text == old(doc.text) + TitleBlock(title)
  {
    doc.Log(title);
    doc.Log(Doc.Underline(title));
    doc.Linebreak();
    assert Doc.Newlines(1) == "\n";
    AppendLines(old(doc.text), title, Doc.Underline(title), "");
  }

  /** Logs `Closing(heading, message)` to `doc`. */
  method LogClosing(doc: Doc.Doc, heading: string, message: string)
    modifies doc
    ensures doc.text == old(doc.text) + Closing(heading, message)
  {
    var t0 := doc.text;
    doc.Linebreak();
    assert Doc.Newlines(1) == "\n";
    doc.Log(heading);
    doc.Log(Doc.Underline(heading));
    doc.Log(message);
    ClosingText(t0, heading, Doc.Underline(heading), message);
  }

  lemma ClosingText(t: string, a: string, b: string, c: string)
    ensures t + "\n" + a + "\n" + b + "\n" + c + "\n" == t + ("\n" + a + "\n" + b + "\n" + c + "\n")
  {
  }

  /** Logs the closing section when some user is flagged. */
  method LogFixSection(doc: Doc.Doc, flagged: seq<string>)
    modifies doc
    ensures doc.text == old(doc.text) + FixSection(flagged)
  {
    if |flagged| > 0 {
      LogClosing(doc, FixHeading, FixMessage(flagged));
    } else {
      assert old(doc.text) + "" == old(doc.text);
    }
  }

  /** Unfolds the text and the flagged users at the next user. */
  lemma RenderStep(users: seq<UserSummary>, u: nat)
    requires u < |users|
    ensures UsersText(users[..u + 1]) == UsersText(users[..u]) + UserSection(users[u])
    ensures FlaggedUsers(users[..u + 1]) ==
      if AnyProblem(UseIssueTitles(users[u].items)) then AddUser(FlaggedUsers(users[..u]), users[u].user)
      else FlaggedUsers(users[..u])
  {
    assert users[..u + 1][..u] == users[..u];
  }

  /** Every user's section, logged to `doc` in order; the result lists
      the users whose rows need fixing. */
  method RenderUsers(doc: Doc.Doc, users: seq<UserSummary>) returns (problems: seq<string>)
    modifies doc
    ensures doc.text == old(doc.text) + UsersText(users)
    ensures problems == FlaggedUsers(users)
  {
    problems := [];
    var u := 0;
    while u < |users|
      invariant 0 <= u <= |users|
      invariant doc.text == old(doc.text) + UsersText(users[..u])
      invariant problems == FlaggedUsers(users[..u])
    {
      var before := doc.text;
      problems := RenderUser(doc, users[u], problems);
      RenderStep(users, u);
      AppendText(old(doc.text), UsersText(users[..u]), UserSection(users[u]));
      assert doc.text == before + UserSection(users[u]);
      u := u + 1;
    }
    assert users[..|users|] == users;
  }

  /** The document-building part of `processDetailed`, for users whose rows
      already carry their issues. */
  method RenderDetailed(since: string, until: string, users: seq<UserSummary>)
    returns (text: string, flagged: seq<string>)
    ensures text == DetailedText(since, until, users)
    ensures flagged == FlaggedUsers(users)
  {
    var doc := new Doc.Doc();
    LogTitleBlock(doc, SummaryTitle(since, until));
    assert doc.text == TitleBlock(SummaryTitle(since, until));
    var problems := RenderUsers(doc, users);
    LogFixSection(doc, problems);
    text := doc.Get();
    flagged := problems;
  }

  lemma {:induction false} AnyProblemSpec(items: seq<Item>)
    ensures AnyProblem(items) <==> exists i :: 0 <= i < |items| && HasProblem(items[i])
    decreases |items|
  {
    if items != [] {
      var n := |items| - 1;
      AnyProblemSpec(items[..n]);
      assert forall i :: 0 <= i < n ==> items[..n][i] == items[i];
    }
  }

  /** A user is flagged exactly when one of their rows, as printed, needs
      fixing; each flagged user is listed once. */
  lemma {:induction false} FlaggedUsersSpec(users: seq<UserSummary>)
    ensures NoDuplicates(FlaggedUsers(users))
    ensures forall name :: name in FlaggedUsers(users) <==>
      exists i :: 0 <= i < |users| && users[i].user == name && AnyProblem(UseIssueTitles(users[i].items))
    decreases |users|
  {
    if users != [] {
      var n := |users| - 1;
      var init := FlaggedUsers(users[..n]);
      FlaggedUsersSpec(users[..n]);
      assert forall i :: 0 <= i < n ==> users[..n][i] == users[i];
      if AnyProblem(UseIssueTitles(users[n].items)) && users[n].user !in init {
        Objects.NoDuplicatesSnoc(init, users[n].user);
      }
    }
  }

  /** The closing section appears exactly when some user is flagged. */
  lemma FixSectionPresent(flagged: seq<string>)
    ensures FixSection(flagged) == "" <==> flagged == []
  {
    if flagged != [] {
      assert FixSection(flagged)[0] == '\n';
    }
  }

  /** The closing message names a single user alone and says `has`;
      several users are joined with ` & ` and say `have`, and one more
      flagged user adds ` & ` and that name after the others. */
  lemma FixMessageSpec(flagged: seq<string>, user: string)
    ensures |flagged| == 1 ==> FixMessage(flagged) == flagged[0] + " has" + FixTail
    ensures |flagged| > 1 ==> FixMessage(flagged) == Join(flagged, " & ") + " have" + FixTail
    ensures flagged != [] ==>
      FixMessage(flagged + [user]) == Join(flagged, " & ") + " & " + user + " have" + FixTail
  {
    if |flagged| == 1 {
      assert Join(flagged, " & ") == flagged[0];
    }
    if flagged != [] {
      JoinSnoc(flagged, user, " & ");
    }
  }
}
