/**
 * The Python 2 `str` operations the build helper relies on, restricted to what
 * its inputs can contain: child-process output read with universal newlines
 * (so '\n' is the only line break) and the six ASCII whitespace characters
 * that `str.strip` and `str.split` recognise on a byte string.
 */
module Text {

  datatype Option<T> = None | Some(value: T)

  /** `c.isspace()` for a Python 2 byte string. */
  predicate IsSpace(c: char) {
    c == ' ' || c == '\t' || c == '\n' || c == '\r' || c == '\U{0B}' || c == '\U{0C}'
  }

  predicate NoSpace(s: string) {
    forall i :: 0 <= i < |s| ==> !IsSpace(s[i])
  }

  predicate AllSpace(s: string) {
    forall i :: 0 <= i < |s| ==> IsSpace(s[i])
  }

  // ---------------------------------------------------------------------------
  // strip, startswith, `in`
  // ---------------------------------------------------------------------------

  /** `s.lstrip()`: the suffix left after dropping leading whitespace. */
  function TrimLeft(s: string): (r: string)
    ensures |r| <= |s|
    ensures r != "" ==> !IsSpace(r[0])
  {
    if s != "" && IsSpace(s[0]) then TrimLeft(s[1..]) else s
  }

  /** `lstrip()` drops a prefix made of whitespace only. */
  lemma {:induction false} TrimLeftDropsSpace(s: string)
    ensures TrimLeft(s) == s[|s| - |TrimLeft(s)|..]
    ensures forall i :: 0 <= i < |s| - |TrimLeft(s)| ==> IsSpace(s[i])
  {
    if s != "" && IsSpace(s[0]) {
      TrimLeftDropsSpace(s[1..]);
    }
  }

  /** `s.rstrip()`: the prefix left after dropping trailing whitespace. */
  function TrimRight(s: string): (r: string)
    ensures |r| <= |s| && r == s[..|r|]
    ensures r != "" ==> !IsSpace(r[|r| - 1])
    ensures forall i :: |r| <= i < |s| ==> IsSpace(s[i])
  {
    if s != "" && IsSpace(s[|s| - 1]) then TrimRight(s[..|s| - 1]) else s
  }

  /** `s.strip()` */
  function Strip(s: string): string {
    TrimRight(TrimLeft(s))
  }

  /** `w in t` for strings: `w` occurs in `t` at some position. */
  predicate Occurs(w: string, t: string) {
    exists i :: 0 <= i <= |t| && w <= t[i..]
  }

  /** A string whose first character is not whitespace keeps that first character under `strip()`. */
  lemma {:induction false} StripKeepsFirstVisible(s: string)
    requires s != "" && !IsSpace(s[0])
    ensures Strip(s) != "" && Strip(s)[0] == s[0]
  {
    assert TrimLeft(s) == s;
  }

  /**
   * `s.strip().startswith(c)` for a non-whitespace `c` holds exactly when the
   * first character of `s` that is not whitespace is `c`.
   */
  lemma {:induction false} StripStartsWith(s: string, c: char)
    requires !IsSpace(c)
    ensures ([c] <= Strip(s)) <==> exists i :: 0 <= i < |s| && s[i] == c && forall j :: 0 <= j < i ==> IsSpace(s[j])
  {
    var t := TrimLeft(s);
    var k := |s| - |t|;
    TrimLeftDropsSpace(s);
    if t != "" {
      StripKeepsFirstVisible(t);
      assert Strip(s) == Strip(t);
      assert s[k] == t[0];
    }
    if exists i :: 0 <= i < |s| && s[i] == c && forall j :: 0 <= j < i ==> IsSpace(s[j]) {
      var i :| 0 <= i < |s| && s[i] == c && forall j :: 0 <= j < i ==> IsSpace(s[j]);
      // TrimLeft stops exactly at i: everything before it is space and s[i] is not.
      assert k == i;
    }
  }

  // ---------------------------------------------------------------------------
  // ''.join and splitlines
  // ---------------------------------------------------------------------------

  /** `''.join(parts)` */
  function Concat(parts: seq<string>): string {
    if parts == [] then "" else parts[0] + Concat(parts[1..])
  }

  lemma {:induction false} ConcatAppend(a: seq<string>, b: seq<string>)
    ensures Concat(a + b) == Concat(a) + Concat(b)
  {
    if a == [] {
      assert a + b == b;
    } else {
      assert (a + b)[1..] == a[1..] + b;
      ConcatAppend(a[1..], b);
    }
  }

  /** Length of the first line of `s`, counting its '\n' terminator when it has one. */
  function LineLength(s: string): (n: nat)
    ensures n <= |s|
    ensures s != "" ==> 0 < n
    ensures forall j :: 0 <= j < n - 1 ==> s[j] != '\n'
    ensures 0 < n < |s| ==> s[n - 1] == '\n'
  {
    if s == "" then 0 else if s[0] == '\n' then 1 else 1 + LineLength(s[1..])
  }
  /** A line as `splitlines(True)` yields it: not empty, and '\n' at most as its last character. */
  predicate IsLine(l: string) {
    l != "" && forall j :: 0 <= j < |l| - 1 ==> l[j] != '\n'
  }

  predicate EndsWithNewline(s: string) {
    s != "" && s[|s| - 1] == '\n'
  }

  /**
   * `s.splitlines(True)` with '\n' as the only line break: the lines, each
   * keeping its terminator; only the last may lack one; "" has no lines.
   */
  function SplitLines(s: string): (lines: seq<string>)
    ensures Concat(lines) == s
    decreases |s|
  {
    if s == "" then []
    else
      var n := LineLength(s);
      var rest := SplitLines(s[n..]);
      assert s[..n] + s[n..] == s;
      [s[..n]] + rest
  }

  /** Every piece `SplitLines` yields is a line, and all but the last end with '\n'. */
  lemma {:induction false} SplitLinesShape(s: string)
    ensures forall k :: 0 <= k < |SplitLines(s)| ==> IsLine(SplitLines(s)[k])
    ensures forall k :: 0 <= k < |SplitLines(s)| - 1 ==> EndsWithNewline(SplitLines(s)[k])
    decreases |s|
  {
    if s != "" {
      var n := LineLength(s);
      SplitLinesShape(s[n..]);
      var lines := SplitLines(s);
      var rest := SplitLines(s[n..]);
      assert lines == [s[..n]] + rest;
      assert IsLine(s[..n]);
      assert rest != [] ==> n < |s| && EndsWithNewline(s[..n]);
      assert forall k :: 1 <= k < |lines| ==> lines[k] == rest[k - 1];
    }
  }

  /** `LineLength` only looks at the first line, so text after a complete line does not change it. */
  lemma {:induction false} LineLengthAppend(a: string, b: string)
    requires a != ""
    ensures LineLength(a) < |a| || EndsWithNewline(a) ==> LineLength(a + b) == LineLength(a)
  {
    if a[0] != '\n' && |a| > 1 {
      LineLengthAppend(a[1..], b);
      assert (a + b)[1..] == a[1..] + b;
    }
  }

  /** Splitting text made of complete lines followed by more text splits each part separately. */
  lemma {:induction false} SplitLinesAppend(a: string, b: string)
    requires a == "" || EndsWithNewline(a)
    ensures SplitLines(a + b) == SplitLines(a) + SplitLines(b)
    decreases |a|
  {
    if a != "" {
      var n := LineLength(a);
      SplitFirstLine(a, b);
      SplitLinesAppend(a[n..], b);
      assert SplitLines(a) == [a[..n]] + SplitLines(a[n..]);
      AppendAssoc([a[..n]], SplitLines(a[n..]), SplitLines(b));
    } else {
      assert a + b == b;
    }
  }

  /** The first line of complete lines followed by more text is the first line of the lines alone. */
  lemma SplitFirstLine(a: string, b: string)
    requires EndsWithNewline(a)
    ensures SplitLines(a + b) == [a[..LineLength(a)]] + SplitLines(a[LineLength(a)..] + b)
    ensures a[LineLength(a)..] == "" || EndsWithNewline(a[LineLength(a)..])
  {
    var n := LineLength(a);
    LineLengthAppend(a, b);
    SliceAppend(a, b, n);
  }

  /** Cutting `a + b` inside `a` cuts `a` alone. */
  lemma SliceAppend(a: string, b: string, n: nat)
    requires n <= |a|
    ensures (a + b)[..n] == a[..n]
    ensures (a + b)[n..] == a[n..] + b
    ensures n < |a| ==> a[n..][|a[n..]| - 1] == a[|a| - 1]
  {
  }

  /** A single line splits into itself. */
  lemma SplitOneLine(l: string)
    requires IsLine(l)
    ensures SplitLines(l) == [l]
  {
    LineLengthOfLine(l);
    assert l[..|l|] == l;
    assert l[|l|..] == "";
  }

  lemma {:induction false} LineLengthOfLine(l: string)
    requires IsLine(l)
    ensures LineLength(l) == |l|
  {
    if l[0] != '\n' && |l| > 1 {
      LineLengthOfLine(l[1..]);
    }
  }

  /** `s.splitlines(False)[0]`: the first line without its terminator. */
  function FirstLine(s: string): (line: string)
    requires s != ""
  {
    var l := SplitLines(s)[0];
    if EndsWithNewline(l) then l[..|l| - 1] else l
  }

  /** The first line of a text is everything up to its first '\n'. */
  lemma FirstLineOf(line: string, rest: string)
    requires line + rest != ""
    requires forall j :: 0 <= j < |line| ==> line[j] != '\n'
    requires rest == "" || rest[0] == '\n'
    ensures FirstLine(line + rest) == line
  {
    var s := line + rest;
    if line == "" {
      assert s[0] == '\n' && LineLength(s) == 1;
    } else if rest == "" {
      LineLengthOfLine(line);
      assert s[..|s|] == line;
    } else {
      assert IsLine(line + "\n");
      LineLengthOfLine(line + "\n");
      assert s[..|line| + 1] == line + "\n";
      LineLengthAppend(line + "\n", rest[1..]);
      assert s == (line + "\n") + rest[1..];
    }
  }

  // ---------------------------------------------------------------------------
  // ' '.join and split()
  // ---------------------------------------------------------------------------

  /** `' '.join(words)` */
  function JoinWords(words: seq<string>): string {
    if words == [] then ""
    else if |words| == 1 then words[0]
    else words[0] + " " + JoinWords(words[1..])
  }

  predicate IsWord(w: string) {
    w != "" && NoSpace(w)
  }

  /** Length of the leading run of non-whitespace characters of `s`. */
  function WordLength(s: string): (n: nat)
    ensures n <= |s|
    ensures s != "" && !IsSpace(s[0]) ==> 0 < n
  {
    if s == "" || IsSpace(s[0]) then 0 else 1 + WordLength(s[1..])
  }

  /** `s.split()`: the maximal runs of non-whitespace characters, in order. */
  function Fields(s: string): seq<string>
    decreases |s|
  {
    var t := TrimLeft(s);
    if t == "" then []
    else
      var n := WordLength(t);
      assert 0 < n && |t[n..]| < |s|;
      [t[..n]] + Fields(t[n..])
  }

  lemma {:induction false} TrimLeftAppend(a: string, x: string)
    ensures TrimLeft(a + x) == if TrimLeft(a) == "" then TrimLeft(x) else TrimLeft(a) + x
  {
    if a != "" {
      assert (a + x)[0] == a[0];
      if IsSpace(a[0]) {
        assert (a + x)[1..] == a[1..] + x;
        TrimLeftAppend(a[1..], x);
      }
    } else {
      assert a + x == x;
    }
  }

  lemma {:induction false} WordLengthAppend(s: string, x: string)
    requires x != "" && IsSpace(x[0])
    ensures WordLength(s + x) == WordLength(s)
  {
    if s != "" && !IsSpace(s[0]) {
      assert (s + x)[1..] == s[1..] + x;
      WordLengthAppend(s[1..], x);
    } else if s == "" {
      assert s + x == x;
    }
  }

  /** Joining two texts with a space splits into the fields of each, in order. */
  lemma {:induction false} FieldsConcat(a: string, b: string)
    ensures Fields(a + " " + b) == Fields(a) + Fields(b)
    decreases |a|
  {
    var t := TrimLeft(a);
    if t == "" {
      FieldsBlankPrefix(a, b);
    } else {
      var n := WordLength(t);
      var u := t + (" " + b);
      FieldsConcat(t[n..], b);
      TrimLeftAppend(a, " " + b);
      assert a + " " + b == a + (" " + b);
      WordLengthAppend(t, " " + b);
      FieldsWordPrefix(a, b, t, n, u);
    }
  }

  lemma FieldsBlankPrefix(a: string, b: string)
    requires TrimLeft(a) == ""
    ensures Fields(a + " " + b) == Fields(a) + Fields(b)
  {
    TrimLeftAppend(a, " " + b);
    assert a + " " + b == a + (" " + b);
    TrimLeftAppend(" ", b);
    assert TrimLeft(" ") == "";
    assert TrimLeft(a + " " + b) == TrimLeft(b);
    FieldsSameTrim(a + " " + b, b);
  }

  lemma FieldsSameTrim(x: string, y: string)
    requires TrimLeft(x) == TrimLeft(y)
    ensures Fields(x) == Fields(y)
  {
  }

  /** One unfolding of `Fields` on a text whose first word is `t[..n]`. */
  lemma FieldsStep(x: string, t: string, n: nat)
    requires t == TrimLeft(x) != ""
    requires n == WordLength(t)
    ensures Fields(x) == [t[..n]] + Fields(t[n..])
  {
  }

  /** The inductive step of `FieldsConcat` when `a` has a first word `t[..n]`. */
  lemma FieldsWordPrefix(a: string, b: string, t: string, n: nat, u: string)
    requires t == TrimLeft(a) != ""
    requires n == WordLength(t)
    requires u == t + (" " + b)
    requires TrimLeft(a + " " + b) == u && WordLength(u) == n
    requires Fields(t[n..] + " " + b) == Fields(t[n..]) + Fields(b)
    ensures Fields(a + " " + b) == Fields(a) + Fields(b)
  {
    FieldsAfterFirstWord(a, b, t, n, u);
    FieldsStep(a, t, n);
    AppendAssoc([t[..n]], Fields(t[n..]), Fields(b));
  }

  lemma AppendAssoc<T>(x: seq<T>, y: seq<T>, z: seq<T>)
    ensures x + (y + z) == (x + y) + z
  {
  }

  /** `a + " " + b` starts with the first word of `a`, and the rest of `a` and `b` follow. */
  lemma FieldsAfterFirstWord(a: string, b: string, t: string, n: nat, u: string)
    requires t == TrimLeft(a) != ""
    requires n == WordLength(t)
    requires u == t + (" " + b)
    requires TrimLeft(a + " " + b) == u && WordLength(u) == n
    ensures Fields(a + " " + b) == [t[..n]] + Fields(t[n..] + " " + b)
  {
    FieldsStep(a + " " + b, u, n);
    SplitAfterWord(t, b, n, u);
  }

  lemma SplitAfterWord(t: string, b: string, n: nat, u: string)
    requires n <= |t|
    requires u == t + (" " + b)
    ensures u[..n] == t[..n] && u[n..] == t[n..] + " " + b
  {
  }

  /** Every field of a text is a non-empty run of non-whitespace characters. */
  lemma {:induction false} FieldsAreWords(s: string)
    ensures forall k :: 0 <= k < |Fields(s)| ==> IsWord(Fields(s)[k])
    decreases |s|
  {
    var t := TrimLeft(s);
    if t != "" {
      var n := WordLength(t);
      WordLengthNoSpace(t);
      FieldsAreWords(t[n..]);
      FieldsStep(s, t, n);
    }
  }

  lemma {:induction false} WordLengthNoSpace(s: string)
    ensures NoSpace(s[..WordLength(s)])
  {
    if s != "" && !IsSpace(s[0]) {
      WordLengthNoSpace(s[1..]);
      assert s[..WordLength(s)] == [s[0]] + s[1..][..WordLength(s[1..])];
    }
  }

  lemma FieldsOfWord(w: string)
    requires IsWord(w)
    ensures Fields(w) == [w]
  {
    assert TrimLeft(w) == w;
    assert WordLength(w) == |w| by {
      WordLengthOfWord(w);
    }
    assert w[..|w|] == w;
    assert TrimLeft(w[|w|..]) == "";
  }

  lemma {:induction false} WordLengthOfWord(w: string)
    requires NoSpace(w)
    ensures WordLength(w) == |w|
  {
    if w != "" {
      WordLengthOfWord(w[1..]);
    }
  }

  /** `' '.join` and `split()` are inverse on lists of whitespace-free, non-empty words. */
  lemma {:induction false} FieldsJoinWords(words: seq<string>)
    requires forall k :: 0 <= k < |words| ==> IsWord(words[k])
    ensures Fields(JoinWords(words)) == words
  {
    if words == [] {
    } else if |words| == 1 {
      FieldsOfWord(words[0]);
    } else {
      FieldsOfWord(words[0]);
      FieldsJoinWords(words[1..]);
      FieldsConcat(words[0], JoinWords(words[1..]));
      assert words == [words[0]] + words[1..];
    }
  }

  // ---------------------------------------------------------------------------
  // replace and int()
  // ---------------------------------------------------------------------------

  /** `s.replace(c, d)` for single characters. */
  function ReplaceChar(s: string, c: char, d: char): (r: string)
    ensures |r| == |s|
    ensures forall i :: 0 <= i < |s| ==> r[i] == (if s[i] == c then d else s[i])
  {
    if s == "" then "" else [if s[0] == c then d else s[0]] + ReplaceChar(s[1..], c, d)
  }

  /** `s.replace(c, '')`: `s` with every `c` removed. */
  function RemoveChar(s: string, c: char): (r: string)
    ensures c !in r
    ensures c !in s ==> r == s
  {
    if s == "" then "" else
      var head := if s[0] == c then "" else [s[0]];
      assert s == [s[0]] + s[1..];
      head + RemoveChar(s[1..], c)
  }

  /** Removal drops every `c` and keeps every other character as often as it occurs. */
  lemma {:induction false} RemoveCharCount(s: string, c: char)
    ensures multiset(RemoveChar(s, c)) == multiset(s)[c := 0]
  {
    if s != "" {
      RemoveCharCount(s[1..], c);
      assert s == [s[0]] + s[1..];
    }
  }

  /** Removal works piece by piece, so the characters that stay keep their order. */
  lemma {:induction false} RemoveCharAppend(a: string, b: string, c: char)
    ensures RemoveChar(a + b, c) == RemoveChar(a, c) + RemoveChar(b, c)
  {
    if a == "" {
      assert a + b == b;
    } else {
      var head := if a[0] == c then "" else [a[0]];
      assert (a + b)[0] == a[0] && (a + b)[1..] == a[1..] + b;
      RemoveCharAppend(a[1..], b, c);
      assert RemoveChar(a + b, c) == head + RemoveChar(a[1..] + b, c);
      AppendAssoc(head, RemoveChar(a[1..], c), RemoveChar(b, c));
    }
  }

  /** Removing `c` from a text without `c` followed by one `c` gives the text back. */
  lemma {:induction false} RemoveTrailing(s: string, c: char)
    requires c !in s
    ensures RemoveChar(s + [c], c) == s
  {
    if s == "" {
      assert RemoveChar([c], c) == "" + RemoveChar([], c);
    } else {
      assert (s + [c])[1..] == s[1..] + [c];
      RemoveTrailing(s[1..], c);
    }
  }

  predicate IsDigit(ch: char) {
    '0' <= ch <= '9'
  }

  predicate AllDigits(s: string) {
    forall i :: 0 <= i < |s| ==> IsDigit(s[i])
  }

  function DigitValue(ch: char): nat
    requires IsDigit(ch)
  {
    ch as int - '0' as int
  }

  /** The value of a string of decimal digits. */
  function DigitsValue(s: string): nat
    requires AllDigits(s)
  {
    if s == "" then 0 else DigitsValue(s[..|s| - 1]) * 10 + DigitValue(s[|s| - 1])
  }

  /**
   * Python 2 `int(s)` for a token without whitespace: an optional sign and at
   * least one decimal digit; anything else raises ValueError (None here).
   */
  function ParseInt(s: string): (r: Option<int>)
    ensures r.Some? ==> s != "" && forall i :: 0 <= i < |s| ==> IsDigit(s[i]) || (i == 0 && (s[i] == '+' || s[i] == '-'))
    ensures s != "" && AllDigits(s) ==> r.Some? && r.value >= 0
  {
    var signed := s != "" && (s[0] == '+' || s[0] == '-');
    var digits := if signed then s[1..] else s;
    if digits == "" || !AllDigits(digits) then None
    else
      var v: int := DigitsValue(digits);
      Some(if signed && s[0] == '-' then -v else v)
  }

  function DigitChar(d: nat): (ch: char)
    requires d < 10
    ensures IsDigit(ch) && DigitValue(ch) == d
  {
    ('0' as int + d) as char
  }

  /** `str(n)` for a natural number. */
  function NatToString(n: nat): (s: string)
    ensures s != "" && AllDigits(s)
  {
    if n < 10 then [DigitChar(n)] else NatToString(n / 10) + [DigitChar(n % 10)]
  }

  /** `int(str(n)) == n` */
  lemma {:induction false} ParseNatToString(n: nat)
    ensures ParseInt(NatToString(n)) == Some(n)
  {
    DigitsValueOfNat(n);
  }

  /** `int('-' + str(n)) == -n` and `int('+' + str(n)) == n` */
  lemma ParseSignedNat(n: nat)
    ensures ParseInt("-" + NatToString(n)) == Some(-(n as int))
    ensures ParseInt("+" + NatToString(n)) == Some(n)
  {
    DigitsValueOfNat(n);
    assert ("-" + NatToString(n))[1..] == NatToString(n);
    assert ("+" + NatToString(n))[1..] == NatToString(n);
  }

  lemma {:induction false} DigitsValueOfNat(n: nat)
    ensures DigitsValue(NatToString(n)) == n
  {
    var s := NatToString(n);
    if n >= 10 {
      DigitsValueOfNat(n / 10);
      assert s[..|s| - 1] == NatToString(n / 10);
    } else {
      assert s[..0] == "";
    }
  }
}
