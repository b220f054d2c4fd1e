/**
 * The diagnostic colouriser of the build helper: every line of compiler or
 * linker output is wrapped in a terminal colour chosen from the markers it
 * contains, followed by the reset code.
 *
 * The terminal palette itself belongs to the console module, which is not
 * part of this model: it is the parameter `colors`, a map from a colour name
 * ("red", "yellow", "green", "cyan", "end") to its escape sequence.
 */
module Diagnostics {
  import opened Text

  /** Substrings that mark a line as an error; every one starts with ": ". */
  const Errors: seq<string> :=
    [": error:", ": fatal error:", ": undefined reference to", ": cannot find ", ": ld returned 1 exit status"]

  /** Substrings that mark a line as a warning or a note. */
  const Warnings: seq<string> := [": warning:", ": note: "]

  predicate HasMarker(t: string, markers: seq<string>) {
    exists k :: 0 <= k < |markers| && Occurs(markers[k], t)
  }

  /** clang's column indicator under a diagnostic, such as `   ^~~~~`: the stripped line starts with '^'. */
  predicate IsCaretLine(t: string) {
    "^" <= Strip(t)
  }

  /**
   * The colour of one line: green for a column indicator; otherwise red when
   * an error marker occurs (even if a warning marker does too), yellow when
   * only a warning marker occurs, and cyan for anything else.
   */
  function ColorOf(t: string): string {
    if IsCaretLine(t) then "green"
    else if HasMarker(t, Errors) then "red"
    else if HasMarker(t, Warnings) then "yellow"
    else "cyan"
  }

  /** One line as the colouriser emits it. */
  function Framed(line: string, colors: string -> string): string {
    colors(ColorOf(line)) + line + colors("end")
  }

  function ColorizeLines(lines: seq<string>, colors: string -> string): string {
    if lines == [] then "" else Framed(lines[0], colors) + ColorizeLines(lines[1..], colors)
  }

  /** The text `error_colorize(message)` returns. */
  function Colorize(message: string, colors: string -> string): string {
    ColorizeLines(SplitLines(message), colors)
  }

  /** A palette whose escape sequences are all empty. */
  function NoColors(name: string): string {
    ""
  }

  /**
   * Chooses the colour of one line the way the source does: start from cyan,
   * scan the warning markers and stop at the first hit, then scan the error
   * markers and stop at the first hit, so an error overwrites a warning.
   */
  method PickColor(t: string) returns (color: string)
    ensures color == ColorOf(t)
  {
    color := "cyan";
    if "^" <= Strip(t) {
      color := "green";
    } else {
      for k := 0 to |Warnings|
        invariant color == "cyan"
        invariant forall j :: 0 <= j < k ==> !Occurs(Warnings[j], t)
      {
        if Occurs(Warnings[k], t) {
          color := "yellow";
          break;
        }
      }
      ghost var afterWarnings := color;
      assert afterWarnings == if HasMarker(t, Warnings) then "yellow" else "cyan";
      for k := 0 to |Errors|
        invariant color == afterWarnings
        invariant forall j :: 0 <= j < k ==> !Occurs(Errors[j], t)
      {
        if Occurs(Errors[k], t) {
          color := "red";
          break;
        }
      }
    }
  }

  /** `error_colorize`: collects colour, line and reset code for every line, then joins them. */
  method ErrorColorize(message: string, colors: string -> string) returns (colored: string)
    ensures colored == Colorize(message, colors)
  {
    var lines := SplitLines(message);
    var parts: seq<string> := [];
    for i := 0 to |lines|
      invariant Concat(parts) == ColorizeLines(lines[..i], colors)
    {
      var color := PickColor(lines[i]);
      var framed := [colors(color), lines[i], colors("end")];
      ConcatAppend(parts, framed);
      ConcatFramed(colors(color), lines[i], colors("end"));
      ColorizeNextLine(lines, i, colors);
      parts := parts + framed;
    }
    assert lines[..|lines|] == lines;
    colored := Concat(parts);
  }

  lemma ConcatFramed(x: string, y: string, z: string)
    ensures Concat([x, y, z]) == x + y + z
  {
    assert [x, y, z][1..] == [y, z] && [y, z][1..] == [z] && [z][1..] == [];
    assert Concat([z]) == z;
    assert Concat([y, z]) == y + z;
  }

  lemma ColorizeNextLine(lines: seq<string>, i: nat, colors: string -> string)
    requires i < |lines|
    ensures ColorizeLines(lines[..i + 1], colors) == ColorizeLines(lines[..i], colors) + Framed(lines[i], colors)
  {
    ColorizeLinesAppend(lines[..i], [lines[i]], colors);
    assert lines[..i + 1] == lines[..i] + [lines[i]];
    assert [lines[i]][1..] == [];
  }

  lemma {:induction false} ColorizeLinesAppend(a: seq<string>, b: seq<string>, colors: string -> string)
    ensures ColorizeLines(a + b, colors) == ColorizeLines(a, colors) + ColorizeLines(b, colors)
  {
    if a == [] {
      assert a + b == b;
    } else {
      assert (a + b)[1..] == a[1..] + b;
      ColorizeLinesAppend(a[1..], b, colors);
    }
  }

  /** Empty input gives empty output. */
  lemma ColorizeEmpty(colors: string -> string)
    ensures Colorize("", colors) == ""
  {
  }

  /** Deleting the colour codes gives back the input exactly. */
  lemma ColorizeErased(message: string)
    ensures Colorize(message, NoColors) == message
  {
    ErasedLines(SplitLines(message));
  }

  lemma {:induction false} ErasedLines(lines: seq<string>)
    ensures ColorizeLines(lines, NoColors) == Concat(lines)
  {
    if lines != [] {
      ErasedLines(lines[1..]);
    }
  }

  /** A single line is emitted as its colour code, the line itself and the reset code. */
  lemma ColorizeOneLine(line: string, colors: string -> string)
    requires IsLine(line)
    ensures Colorize(line, colors) == Framed(line, colors)
  {
    SplitOneLine(line);
    assert [line][1..] == [];
    assert ColorizeLines([line], colors) == Framed(line, colors) + ColorizeLines([], colors);
  }

  /** Lines are coloured independently: complete lines followed by more text colour separately. */
  lemma ColorizeLineByLine(a: string, b: string, colors: string -> string)
    requires a == "" || EndsWithNewline(a)
    ensures Colorize(a + b, colors) == Colorize(a, colors) + Colorize(b, colors)
  {
    SplitLinesAppend(a, b);
    ColorizeLinesAppend(SplitLines(a), SplitLines(b), colors);
  }

  /** A complete line between complete lines and more text is emitted framed in its own colour. */
  lemma ColorizeAroundLine(before: string, line: string, after: string, colors: string -> string)
    requires before == "" || EndsWithNewline(before)
    requires IsLine(line) && EndsWithNewline(line)
    ensures Colorize(before + (line + after), colors) ==
      Colorize(before, colors) + (Framed(line, colors) + Colorize(after, colors))
  {
    ColorizeLineByLine(before, line + after, colors);
    ColorizeLineByLine(line, after, colors);
    ColorizeOneLine(line, colors);
  }

  /** A line is green exactly when its first non-whitespace character is '^', whatever markers it holds. */
  lemma CaretLineIsGreen(t: string)
    ensures ColorOf(t) == "green" <==>
      exists i :: 0 <= i < |t| && t[i] == '^' && forall j :: 0 <= j < i ==> IsSpace(t[j])
  {
    StripStartsWith(t, '^');
  }

  /**
   * A line with no '^' before an error marker is red, whatever follows the
   * marker, warning markers included.
   */
  lemma ErrorMarkerWins(p: string, k: nat, s: string)
    requires '^' !in p
    requires k < |Errors|
    ensures ColorOf(p + Errors[k] + s) == "red"
  {
    var t := p + Errors[k] + s;
    assert t[|p|..] == Errors[k] + s;
    assert Occurs(Errors[k], t);
    NotCaretBeforeMarker(p, Errors[k], s);
  }

  /** A line with no '^' before a warning marker and no error marker anywhere is yellow. */
  lemma WarningMarkerYellow(p: string, k: nat, s: string)
    requires '^' !in p
    requires k < |Warnings|
    requires !HasMarker(p + Warnings[k] + s, Errors)
    ensures ColorOf(p + Warnings[k] + s) == "yellow"
  {
    var t := p + Warnings[k] + s;
    assert t[|p|..] == Warnings[k] + s;
    assert Occurs(Warnings[k], t);
    NotCaretBeforeMarker(p, Warnings[k], s);
  }

  /** Every marker starts with ':', so a text without '^' before a marker is not a column indicator. */
  lemma NotCaretBeforeMarker(p: string, m: string, s: string)
    requires '^' !in p
    requires m != "" && m[0] == ':'
    ensures !IsCaretLine(p + m + s)
  {
    var t := p + m + s;
    StripStartsWith(t, '^');
    assert t[|p|] == ':' && !IsSpace(t[|p|]);
    assert forall i :: 0 <= i < |p| ==> t[i] == p[i];
    assert forall i :: 0 <= i < |t| && t[i] == '^' ==> |p| < i;
  }

  /** Every non-empty message grows by at least one reset code. */
  lemma ColorizeLonger(message: string, colors: string -> string)
    requires message != ""
    ensures |Colorize(message, colors)| >= |message| + |colors("end")|
  {
    var lines := SplitLines(message);
    ColorizeLinesLength(lines, colors);
  }

  lemma {:induction false} ColorizeLinesLength(lines: seq<string>, colors: string -> string)
    ensures |ColorizeLines(lines, colors)| >= |Concat(lines)| + (if lines == [] then 0 else |colors("end")|)
  {
    if lines != [] {
      ColorizeLinesLength(lines[1..], colors);
    }
  }
}
