/**
 * How text made of separator-free pieces splits back into those pieces:
 * the shape of every request and response line of the control session.
 */
module Lines {
  import opened Text

  /** Two separator-free pieces joined by the separator split back apart. */
  lemma Split2(a: string, b: string, sep: char)
    requires sep !in a && sep !in b
    ensures Split(a + [sep] + b, sep) == [a, b]
  {
    SplitAt(a, b, sep);
    SplitNone(b, sep);
  }

  /** Three separator-free pieces joined by the separator split back apart. */
  lemma Split3(a: string, b: string, c: string, sep: char)
    requires sep !in a && sep !in b && sep !in c
    ensures Split(a + [sep] + b + [sep] + c, sep) == [a, b, c]
  {
    Group3(a, b, c, [sep]);
    SplitAt(a, b + [sep] + c, sep);
    Split2(b, c, sep);
  }

  /**
   * Two separator-free lines and then either nothing or a line break and
   * more text: the lines are the two, then the lines of the rest.
   */
  lemma TwoLines(line0: string, line1: string, rest: string)
    requires '\n' !in line0 && '\n' !in line1
    requires rest == [] || rest[0] == '\n'
    ensures Split(line0 + ['\n'] + line1 + rest, '\n')
      == [line0, line1] + if rest == [] then [] else Split(rest[1..], '\n')
  {
    var t := if rest == [] then [] else Split(rest[1..], '\n');
    assert line0 + ['\n'] + line1 + rest == line0 + ['\n'] + (line1 + rest);
    SplitAt(line0, line1 + rest, '\n');
    OneLine(line1, rest);
    assert [line0] + ([line1] + t) == [line0, line1] + t;
  }

  /** Three separator-free lines and then either nothing or a line break and more text. */
  lemma ThreeLines(line0: string, line1: string, line2: string, more: string)
    requires '\n' !in line0 && '\n' !in line1 && '\n' !in line2
    requires more == [] || more[0] == '\n'
    ensures Split(line0 + ['\n'] + line1 + (['\n'] + line2 + more), '\n')
      == [line0, line1, line2] + if more == [] then [] else Split(more[1..], '\n')
  {
    var t := if more == [] then [] else Split(more[1..], '\n');
    var r := ['\n'] + line2 + more;
    TwoLines(line0, line1, r);
    AfterBreak(line2, more);
    OneLine(line2, more);
    ThreeFront(line0, line1, line2, t);
  }

  /** Three pieces with a separator between each: the last two grouped. */
  lemma Group3(a: string, b: string, c: string, sep: string)
    ensures a + sep + b + sep + c == a + sep + (b + sep + c)
  {
  }

  /** A line break in front of a line and more text, dropped again. */
  lemma AfterBreak(line: string, more: string)
    ensures |['\n'] + line + more| > 0 && (['\n'] + line + more)[1..] == line + more
  {
  }

  /** Two lines in front of a third and a list are the three in front of it. */
  lemma ThreeFront(line0: string, line1: string, line2: string, t: seq<string>)
    ensures [line0, line1] + ([line2] + t) == [line0, line1, line2] + t
  {
  }

  /** One separator-free line and then either nothing or a line break and more text. */
  lemma OneLine(line: string, more: string)
    requires '\n' !in line
    requires more == [] || more[0] == '\n'
    ensures Split(line + more, '\n') == [line] + if more == [] then [] else Split(more[1..], '\n')
  {
    if more == [] {
      assert line + more == line;
      SplitNone(line, '\n');
    } else {
      assert line + more == line + ['\n'] + more[1..];
      SplitAt(line, more[1..], '\n');
    }
  }
}
