/**
 * lib/doc.js: a text document built by appending lines, and `underline`,
 * which index.js defines a second time with the same body.
 */
module Doc {
  import opened Js

  /** `str.replace(/./g, char)`: every character `.` matches, that is every
      character but a line terminator, becomes `fill`. */
  function Underline(s: string, fill: char := '='): (r: string)
    ensures |r| == |s|
    ensures forall i :: 0 <= i < |s| ==> r[i] == if IsLineTerminator(s[i]) then s[i] else fill
  {
    if s == [] then []
    else [if IsLineTerminator(s[0]) then s[0] else fill] + Underline(s[1..], fill)
  }

  /** `num` newlines. */
  function Newlines(num: nat): (r: string)
    ensures |r| == num
    ensures forall i :: 0 <= i < num ==> r[i] == '\n'
  {
    seq(num, _ => '\n')
  }

  /** A single-line title's underline is a row of `fill` as long as it. */
  lemma UnderlineSingleLine(s: string, fill: char)
    requires forall i :: 0 <= i < |s| ==> !IsLineTerminator(s[i])
    ensures Underline(s, fill) == seq(|s|, _ => fill)
  {
  }

  class Doc {
    var text: string

    /** `new Doc()`: an empty document. */
    constructor ()
      ensures text == ""
    {
      text := "";
    }

    /** `log(str = '')`: appends the line and a newline. */
    method Log(str: string := "")
      modifies this
      ensures text == old(text) + str + "\n"
      ensures StartsWith(text, old(text))
    {
      text := text + str + "\n";
    }

    /** `linebreak(num = 1)`: logs an empty line while counting `num` down
        to zero, for a count that is not negative. */
    method Linebreak(num: nat := 1)
      modifies this
      ensures text == old(text) + Newlines(num)
    {
      var n: nat := num;
      while n > 0
        invariant n <= num
        invariant text == old(text) + Newlines(num - n)
      {
        Log("");
        assert Newlines(num - n) + "\n" == Newlines(num - n + 1);
        n := n - 1;
      }
    }

    /** `title(str, char = '=')`: the title, then its underline. The fill
        is passed to `log`, which ignores it, so the underline is always
        made of `=`. */
    method Title(str: string, fill: char := '=')
      modifies this
      ensures text == old(text) + str + "\n" + Underline(str, '=') + "\n"
    {
      Log(str);
      Log(Underline(str));
    }

    /** `get()`. */
    method Get() returns (r: string)
      ensures r == text
    {
      r := text;
    }
  }
}
