/**
 * .NET's `StringBuilder`, as the two argument builders use it: `Append`, `AppendLine`,
 * `Replace(Environment.NewLine, " ")` and `ToString`.
 *
 * Besides its contents the class keeps, as ghost state, the lines appended so far and the
 * unfinished line after them. `Valid` says the contents are those lines, each ended by a
 * line break, then the unfinished line; replacing the line breaks ends that reading.
 */
module Builders {
  import opened Text

  /** The lines `l1`, `l2`, ... each followed by a line break. */
  function LinesText(lines: seq<string>): string
    decreases |lines|
  {
    if |lines| == 0 then "" else LinesText(lines[..|lines| - 1]) + lines[|lines| - 1] + [NewLine]
  }

  /** The lines `l1`, `l2`, ... as `l1 l2 ... ` (each followed by one space). */
  function SpaceLine(lines: seq<string>): string
    decreases |lines|
  {
    if |lines| == 0 then "" else SpaceLine(lines[..|lines| - 1]) + lines[|lines| - 1] + " "
  }

  /** A builder's lines, as `ToString().Trim()` returns them after the line breaks were replaced. */
  function CommandLine(lines: seq<string>): string {
    Trim(Unline(SpaceLine(lines)))
  }

  lemma SpaceLineSnoc(lines: seq<string>, s: string)
    ensures SpaceLine(lines + [s]) == SpaceLine(lines) + s + " "
  {
    assert (lines + [s])[..|lines|] == lines;
  }

  lemma LinesTextSnoc(lines: seq<string>, s: string)
    ensures LinesText(lines + [s]) == LinesText(lines) + s + [NewLine]
  {
    assert (lines + [s])[..|lines|] == lines;
  }

  class StringBuilder {
    var content: string
    ghost var lines: seq<string>
    ghost var pending: string

    ghost predicate Valid()
      reads this
    {
      content == LinesText(lines) + pending
    }

    constructor()
      ensures Valid() && content == "" && lines == [] && pending == ""
    {
      content, lines, pending := "", [], "";
    }

    method Append(s: string)
      requires Valid()
      modifies this
      ensures Valid()
      ensures lines == old(lines) && pending == old(pending) + s
    {
      content, pending := content + s, pending + s;
    }

    method AppendLine(s: string)
      requires Valid()
      modifies this
      ensures Valid()
      ensures lines == old(lines) + [old(pending) + s] && pending == ""
      ensures old(pending) == "" ==> lines == old(lines) + [s]
    {
      LinesTextSnoc(lines, pending + s);
      if pending == "" {
        assert pending + s == s;
      }
      content, lines, pending := content + s + [NewLine], lines + [pending + s], "";
    }

    /** `Replace(Environment.NewLine, " ")`. */
    method ReplaceNewLines()
      modifies this
      ensures content == Unline(old(content))
      ensures lines == old(lines) && pending == old(pending)
    {
      content := Unline(content);
    }

    function ToString(): string
      reads this
    {
      content
    }
  }

  /** Line breaks and spaces both read as spaces once the line breaks are replaced. */
  lemma {:induction false} UnlineLines(lines: seq<string>)
    ensures Unline(LinesText(lines)) == Unline(SpaceLine(lines))
    decreases |lines|
  {
    if |lines| > 0 {
      var front := lines[..|lines| - 1];
      var last := lines[|lines| - 1];
      UnlineLines(front);
      UnlineConcat(LinesText(front) + last, [NewLine]);
      UnlineConcat(LinesText(front), last);
      UnlineConcat(SpaceLine(front) + last, " ");
      UnlineConcat(SpaceLine(front), last);
      assert Unline([NewLine]) == Unline(" ");
    }
  }

  /** With line breaks replaced, a valid builder reads as its lines each followed by a space, then the unfinished line. */
  lemma BuilderView(content: string, lines: seq<string>, pending: string)
    requires content == LinesText(lines) + pending
    ensures Unline(content) == Unline(SpaceLine(lines) + pending)
  {
    UnlineLines(lines);
    UnlineConcat(LinesText(lines), pending);
    UnlineConcat(SpaceLine(lines), pending);
  }

  /** Once every line is closed, the trimmed, un-lined contents are the command line of the lines. */
  lemma FinishedLines(content: string, lines: seq<string>)
    requires content == LinesText(lines)
    ensures Trim(Unline(content)) == CommandLine(lines)
  {
    UnlineLines(lines);
  }

  // ---------------------------------------------------------------- joined lines

  /** No line holds a line break. */
  predicate Unbroken(lines: seq<string>) {
    forall i :: 0 <= i < |lines| ==> NewLine !in lines[i]
  }

  /** No line holds a line break or a space. */
  predicate PlainLines(lines: seq<string>) {
    Unbroken(lines) && forall i :: 0 <= i < |lines| ==> ' ' !in lines[i]
  }

  lemma UnbrokenConcat(a: seq<string>, b: seq<string>)
    requires Unbroken(a) && Unbroken(b)
    ensures Unbroken(a + b)
  {
    forall i | 0 <= i < |a + b|
      ensures NewLine !in (a + b)[i]
    {
      if i >= |a| {
        assert (a + b)[i] == b[i - |a|];
      }
    }
  }

  lemma PlainConcat(a: seq<string>, b: seq<string>)
    requires PlainLines(a) && PlainLines(b)
    ensures PlainLines(a + b)
  {
    UnbrokenConcat(a, b);
    forall i | 0 <= i < |a + b|
      ensures ' ' !in (a + b)[i]
    {
      if i >= |a| {
        assert (a + b)[i] == b[i - |a|];
      }
    }
  }

  lemma {:induction false} SpaceLineJoin(lines: seq<string>)
    requires |lines| >= 1
    ensures SpaceLine(lines) == Join(lines, ' ') + " "
    decreases |lines|
  {
    if |lines| > 1 {
      var front := lines[..|lines| - 1];
      SpaceLineJoin(front);
      JoinSnoc(front, lines[|lines| - 1], ' ');
      assert front + [lines[|lines| - 1]] == lines;
    } else {
      assert lines[..0] == [];
    }
  }

  lemma {:induction false} JoinSnoc(parts: seq<string>, last: string, sep: char)
    requires |parts| >= 1
    ensures Join(parts + [last], sep) == Join(parts, sep) + [sep] + last
    decreases |parts|
  {
    if |parts| == 1 {
      assert (parts + [last])[1..] == [last];
    } else {
      assert (parts + [last])[1..] == parts[1..] + [last];
      JoinSnoc(parts[1..], last, sep);
    }
  }

  lemma {:induction false} JoinNoNewLine(parts: seq<string>, sep: char)
    requires |parts| >= 1 && sep != NewLine
    requires forall i :: 0 <= i < |parts| ==> NewLine !in parts[i]
    ensures NewLine !in Join(parts, sep)
    decreases |parts|
  {
    if |parts| > 1 {
      JoinNoNewLine(parts[1..], sep);
    }
  }

  /** A join starts with its first part and ends with its last. */
  lemma JoinEnds(parts: seq<string>, sep: char)
    requires |parts| >= 1
    ensures var j := Join(parts, sep); var l := parts[|parts| - 1];
      && |parts[0]| <= |j| && j[..|parts[0]|] == parts[0]
      && |l| <= |j| && j[|j| - |l|..] == l
  {
    if |parts| > 1 {
      var front := parts[..|parts| - 1];
      JoinSnoc(front, parts[|parts| - 1], ' ');
      JoinSnoc(front, parts[|parts| - 1], sep);
      assert front + [parts[|parts| - 1]] == parts;
    }
  }

  /**
   * For lines without line breaks whose command line neither starts nor ends blank, the
   * command line is the lines joined by single spaces; when no line holds a space either,
   * splitting it at spaces gives the lines back.
   */
  lemma CommandLineIsJoin(lines: seq<string>)
    requires |lines| >= 1 && Unbroken(lines)
    requires lines[0] != [] && !IsWhiteSpace(lines[0][0])
    requires var l := lines[|lines| - 1]; l != [] && !IsWhiteSpace(l[|l| - 1])
    ensures CommandLine(lines) == Join(lines, ' ')
    ensures PlainLines(lines) ==> Split(CommandLine(lines), ' ') == lines
  {
    SpaceLineJoin(lines);
    var j := Join(lines, ' ');
    JoinNoNewLine(lines, ' ');
    assert NewLine !in j + " ";
    UnlineNoNewLine(j + " ");
    JoinEnds(lines, ' ');
    var l := lines[|lines| - 1];
    assert j[|j| - 1] == l[|l| - 1];
    TrimEndConcat(j, " ");
    assert TrimEnd(" ") == [];
    if PlainLines(lines) {
      JoinSplit(lines, ' ');
    }
  }
}
