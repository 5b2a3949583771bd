/**
 * The records that flow through the reporting core: a parsed issue-tracker
 * issue and a report row (a time entry, a merged row or a project row).
 */
module Records {
  import opened Js

  /** An issue as `parseIssue` shapes it: every field is whatever value the
      payload holds at the field's path (or the field's default). */
  datatype Issue = Issue(
    key: JsValue,
    issueType: JsValue,
    status: JsValue,
    summary: JsValue,
    assignee: JsValue,
    parent: JsValue,
    labels: JsValue,
    epic: JsValue,
    epicTitle: JsValue)

  /** A numeric percentage, which is NaN when its total was zero or one of
      its summands was missing. */
  datatype Number = Finite(n: int) | NotANumber

  /** A report row. `issueKey` is `Undefined` when the row has none and
      `Null` when the parser found none; `issue` and `percent` are `None`
      when the row has no such property; `project` is `None` when it is
      null or missing. Times are whole units of the report's time measure. */
  datatype Item = Item(
    title: string,
    time: nat,
    issueKey: JsValue,
    issue: Option<Issue>,
    percent: Option<Number>,
    project: Option<string>)

  /** A row holding only a title and a time. */
  function Row(title: string, time: nat): Item {
    Item(title, time, Undefined, None, None, None)
  }
}
