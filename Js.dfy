/**
 * The slice of JavaScript's value model and built-in string operations that
 * the reporting core depends on: truthiness, conversion to string, first
 * occurrence search, `String.prototype.replace` with a string pattern,
 * `Array.prototype.join` and `slice`.
 */
module Js {

  datatype Option<T> = None | Some(value: T)

  /** A computation that completes with a value or throws (the error's text). */
  datatype Result<T> = Ok(value: T) | Err(error: string)

  /** A JavaScript value as far as the core distinguishes them. Numbers are
      integers (or NaN); objects keep their own enumerable properties in order. */
  datatype JsValue =
    | Undefined
    | Null
    | Bool(b: bool)
    | Num(n: int)
    | NaN
    | Str(s: string)
    | Arr(elems: seq<JsValue>)
    | Obj(props: seq<Prop>)

  datatype Prop = Prop(name: string, value: JsValue)

  /** The value of property `name`; the last one wins,
      as with object spread and `JSON.parse`. */
  function Lookup(props: seq<Prop>, name: string): Option<JsValue> {
    if props == [] then None
    else if props[|props| - 1].name == name then Some(props[|props| - 1].value)
    else Lookup(props[..|props| - 1], name)
  }

  /** A property no later property overrides is what its name looks up. */
  lemma {:induction false} LookupLast(props: seq<Prop>, i: nat)
    requires i < |props|
    requires forall j :: i < j < |props| ==> props[j].name != props[i].name
    ensures Lookup(props, props[i].name) == Some(props[i].value)
    decreases |props|
  {
    if i < |props| - 1 {
      LookupLast(props[..|props| - 1], i);
    }
  }

  /** A name no property has looks up nothing. */
  lemma {:induction false} LookupMissing(props: seq<Prop>, name: string)
    requires forall j :: 0 <= j < |props| ==> props[j].name != name
    ensures Lookup(props, name) == None
    decreases |props|
  {
    if props != [] {
      LookupMissing(props[..|props| - 1], name);
    }
  }

  /** JavaScript truthiness: `if (v)`, `v || w`, `!v`. */
  predicate Truthy(v: JsValue) {
    match v
    case Undefined => false
    case Null => false
    case Bool(b) => b
    case Num(n) => n != 0
    case NaN => false
    case Str(s) => s != ""
    case Arr(_) => true
    case Obj(_) => true
  }

  predicate IsDigit(c: char) {
    '0' <= c <= '9'
  }

  function DigitChar(d: nat): (c: char)
    requires d < 10
    ensures IsDigit(c)
  {
    "0123456789"[d]
  }

  /** Decimal text of a non-negative integer, as `String(n)` prints it. */
  function NatToString(n: nat): (r: string)
    ensures |r| > 0
    ensures forall i :: 0 <= i < |r| ==> IsDigit(r[i])
  {
    if n < 10 then [DigitChar(n)] else NatToString(n / 10) + [DigitChar(n % 10)]
  }

  function IntToString(n: int): (r: string)
    ensures |r| > 0
  {
    if n < 0 then "-" + NatToString(-n) else NatToString(n)
  }

  /** `String(v)` and template-literal interpolation `${v}`. */
  function ToStr(v: JsValue): string
    decreases v
  {
    match v
    case Undefined => "undefined"
    case Null => "null"
    case Bool(b) => if b then "true" else "false"
    case Num(n) => IntToString(n)
    case NaN => "NaN"
    case Str(s) => s
    case Arr(es) => ElemsToStr(es)
    case Obj(_) => "[object Object]"
  }

  /** `Array.prototype.toString`: elements joined by commas, with `null` and
      `undefined` elements written as empty text. */
  function ElemsToStr(es: seq<JsValue>): string
    decreases es
  {
    if es == [] then ""
    else
      var head := if es[0].Undefined? || es[0].Null? then "" else ToStr(es[0]);
      if |es| == 1 then head else head + "," + ElemsToStr(es[1..])
  }

  /** `parts.join(sep)`. */
  function Join(parts: seq<string>, sep: string): string {
    if parts == [] then ""
    else if |parts| == 1 then parts[0]
    else parts[0] + sep + Join(parts[1..], sep)
  }

  /** The parts joined by `sep`, as `Array.prototype.join` does: one more
      part adds the separator and that part at the end. */
  lemma {:induction false} JoinSnoc(parts: seq<string>, last: string, sep: string)
    requires parts != []
    ensures Join(parts + [last], sep) == Join(parts, sep) + sep + last
    decreases |parts|
  {
    if |parts| == 1 {
      assert (parts + [last])[1..] == [last];
    } else {
      assert (parts + [last])[1..] == parts[1..] + [last];
      JoinSnoc(parts[1..], last, sep);
    }
  }

  /** Every element is different from every other. */
  predicate NoDuplicates<T(==)>(s: seq<T>) {
    forall i, j :: 0 <= i < j < |s| ==> s[i] != s[j]
  }

  predicate OccursAt(s: string, pat: string, i: nat) {
    i + |pat| <= |s| && s[i..i + |pat|] == pat
  }

  /** The first index at or after `from` where `pat` occurs in `s`. */
  function IndexFrom(s: string, pat: string, from: nat): (r: Option<nat>)
    requires from <= |s|
    decreases |s| - from
    ensures r.Some? ==> from <= r.value && OccursAt(s, pat, r.value)
    ensures r.Some? ==> forall j :: from <= j < r.value ==> !OccursAt(s, pat, j)
    ensures r.None? ==> forall j :: from <= j <= |s| ==> !OccursAt(s, pat, j)
  {
    if OccursAt(s, pat, from) then Some(from)
    else if from == |s| then None
    else IndexFrom(s, pat, from + 1)
  }

  /** `s.indexOf(pat)`, as an option instead of -1. */
  function IndexOf(s: string, pat: string): Option<nat> {
    IndexFrom(s, pat, 0)
  }

  /** The replacement text of `String.prototype.replace` with a string
      pattern: `$$`, `$&`, `` $` `` and `$'` are expanded; every other `$`
      (there are no capture groups) stands for itself. */
  function Substitute(repl: string, matched: string, before: string, after: string): string
  {
    if repl == [] then []
    else if repl[0] == '$' && |repl| >= 2 && repl[1] in "$&`'" then
      var piece :=
        if repl[1] == '$' then "$"
        else if repl[1] == '&' then matched
        else if repl[1] == '`' then before
        else after;
      piece + Substitute(repl[2..], matched, before, after)
    else
      [repl[0]] + Substitute(repl[1..], matched, before, after)
  }

  /** `s.replace(pat, repl)` for a string `pat`: only the first occurrence
      is replaced. */
  function ReplaceFirst(s: string, pat: string, repl: string): string {
    match IndexOf(s, pat)
    case None => s
    case Some(i) =>
      s[..i] + Substitute(repl, pat, s[..i], s[i + |pat|..]) + s[i + |pat|..]
  }

  /** Where `pat` first occurs at `i`, that occurrence is the one replaced. */
  lemma ReplaceFirstAt(s: string, pat: string, repl: string, i: nat)
    requires IndexOf(s, pat) == Some(i)
    ensures i + |pat| <= |s| && s[i..i + |pat|] == pat
    ensures forall j :: 0 <= j < i ==> !OccursAt(s, pat, j)
    ensures ReplaceFirst(s, pat, repl) == s[..i] + Substitute(repl, pat, s[..i], s[i + |pat|..]) + s[i + |pat|..]
  {
  }

  lemma ReplaceFirstAbsent(s: string, pat: string, repl: string)
    requires forall j :: 0 <= j <= |s| ==> !OccursAt(s, pat, j)
    ensures ReplaceFirst(s, pat, repl) == s
  {
  }

  /** The characters `.` does not match in a JavaScript regular expression. */
  predicate IsLineTerminator(c: char) {
    c == '\n' || c == '\r' || c == '\U{2028}' || c == '\U{2029}'
  }

  /** Clamps a relative index the way `slice` and `splice` do: a negative
      index counts from the end. */
  function RelativeIndex(k: int, len: nat): (r: nat)
    ensures r <= len
  {
    if k < 0 then (if len + k < 0 then 0 else len + k)
    else if k > len then len
    else k
  }

  /** `a.slice(start, end)`. */
  function Slice<T>(a: seq<T>, start: int, end: int): (r: seq<T>)
  {
    var from := RelativeIndex(start, |a|);
    var to := RelativeIndex(end, |a|);
    if from < to then a[from..to] else []
  }

  predicate StartsWith(s: string, prefix: string) {
    |prefix| <= |s| && s[..|prefix|] == prefix
  }
}
