/**
 * Strings as Python's str methods and Java's formatter see them: whitespace
 * (str.isspace), strip, split with no separator, " ".join, startswith,
 * substring search, decimal digits, and the split of a text into lines.
 */
module Text {
  import opened Results

  /** Python's str.isspace() for one character: the set strip() and split() remove. */
  predicate IsSpace(c: char) {
    || c == ' '
    || ('\t' <= c <= '\r')
    || ('\U{1C}' <= c <= '\U{1F}')
    || c == '\U{85}' || c == '\U{A0}' || c == '\U{1680}'
    || ('\U{2000}' <= c <= '\U{200A}')
    || c == '\U{2028}' || c == '\U{2029}' || c == '\U{202F}' || c == '\U{205F}' || c == '\U{3000}'
  }

  predicate NoSpace(s: string) {
    forall i :: 0 <= i < |s| ==> !IsSpace(s[i])
  }

  /** A non-empty run of non-whitespace characters: what str.split() yields. */
  predicate IsToken(s: string) {
    s != [] && NoSpace(s)
  }

  /** str.lstrip(): drops the leading whitespace and nothing else. */
  function TrimLeft(s: string): (r: string)
    ensures |r| <= |s| && r == s[|s| - |r|..]
    ensures r == [] || !IsSpace(r[0])
    ensures forall i :: 0 <= i < |s| - |r| ==> IsSpace(s[i])
  {
    if s == [] || !IsSpace(s[0]) then s else TrimLeft(s[1..])
  }

  /** str.rstrip(): drops the trailing whitespace and nothing else. */
  function TrimRight(s: string): (r: string)
    ensures |r| <= |s| && r == s[..|r|]
    ensures r == [] || !IsSpace(r[|r| - 1])
    ensures forall i :: |r| <= i < |s| ==> IsSpace(s[i])
  {
    if s == [] || !IsSpace(s[|s| - 1]) then s else TrimRight(s[..|s| - 1])
  }

  /** str.strip(). */
  function Strip(s: string): (r: string)
    ensures r == [] || (!IsSpace(r[0]) && !IsSpace(r[|r| - 1]))
  {
    TrimRight(TrimLeft(s))
  }

  /** A text whose first and last characters are not whitespace is its own strip. */
  lemma {:induction false} StripUnchanged(s: string)
    requires s != [] && !IsSpace(s[0]) && !IsSpace(s[|s| - 1])
    ensures Strip(s) == s
  {
  }

  /** Stripping keeps a first character that is not whitespace. */
  lemma {:induction false} StripKeepsFirst(s: string)
    requires s != [] && !IsSpace(s[0])
    ensures Strip(s) != [] && Strip(s)[0] == s[0]
  {
    assert TrimLeft(s) == s;
  }

  /** Length of the longest prefix without whitespace. */
  function TokenEnd(s: string): (n: nat)
    ensures n <= |s|
    ensures forall i :: 0 <= i < n ==> !IsSpace(s[i])
    ensures n == |s| || IsSpace(s[n])
  {
    if s == [] || IsSpace(s[0]) then 0 else 1 + TokenEnd(s[1..])
  }

  /** The run of non-whitespace that opens a text not starting with whitespace is a token. */
  lemma {:induction false} TokenPrefix(t: string)
    requires t != [] && !IsSpace(t[0])
    ensures 0 < TokenEnd(t) && IsToken(t[..TokenEnd(t)])
  {
    var n := TokenEnd(t);
    forall i | 0 <= i < n ensures !IsSpace(t[..n][i]) {
      assert t[..n][i] == t[i];
    }
  }

  /** str.split() with no argument: the maximal runs of non-whitespace, left to right. */
  function Words(s: string): seq<string>
    decreases |s|
  {
    var t := TrimLeft(s);
    if t == [] then []
    else
      var n := TokenEnd(t);
      [t[..n]] + Words(t[n..])
  }

  /** " ".join(ws). */
  function JoinSpace(ws: seq<string>): string {
    if ws == [] then ""
    else if |ws| == 1 then ws[0]
    else ws[0] + " " + JoinSpace(ws[1..])
  }

  /** The slice ws[k:] of a Python list: empty once k passes the end. */
  function Drop<T>(ws: seq<T>, k: nat): (r: seq<T>)
    ensures k <= |ws| ==> r == ws[k..]
    ensures k > |ws| ==> r == []
  {
    if k <= |ws| then ws[k..] else []
  }

  lemma {:induction false} TokenEndOfToken(w: string, rest: string)
    requires IsToken(w)
    requires rest == [] || IsSpace(rest[0])
    ensures TokenEnd(w + rest) == |w|
    decreases |w|
  {
    if |w| > 1 {
      assert (w + rest)[1..] == w[1..] + rest;
      TokenEndOfToken(w[1..], rest);
    } else {
      assert (w + rest)[1..] == rest;
    }
  }

  lemma {:induction false} WordsOfLeadingSpace(s: string)
    ensures Words(" " + s) == Words(s)
  {
    assert TrimLeft(" " + s) == TrimLeft(s) by {
      assert (" " + s)[0] == ' ' && (" " + s)[1..] == s;
    }
  }

  /** Splitting a single token gives that token back. */
  lemma {:induction false} WordsOfToken(w: string)
    requires IsToken(w)
    ensures Words(w) == [w]
  {
    TokenEndOfToken(w, "");
    assert w + "" == w;
    assert TrimLeft(w) == w;
    assert w[|w|..] == "";
  }

  /** A token followed by a space is split off as the first word. */
  lemma {:induction false} WordsOfTokenThen(w: string, rest: string)
    requires IsToken(w)
    ensures Words(w + " " + rest) == [w] + Words(rest)
  {
    var tail := " " + rest;
    var s := w + tail;
    assert w + " " + rest == s;
    assert TrimLeft(s) == s;
    TokenEndOfToken(w, tail);
    assert s[..|w|] == w;
    assert s[|w|..] == tail;
    WordsOfLeadingSpace(rest);
  }

  lemma {:induction false} WordsOfJoinCons(w: string, ws: seq<string>)
    requires IsToken(w) && ws != [] && Words(JoinSpace(ws)) == ws
    ensures Words(JoinSpace([w] + ws)) == [w] + ws
  {
    assert ([w] + ws)[1..] == ws;
    assert JoinSpace([w] + ws) == w + " " + JoinSpace(ws);
    WordsOfTokenThen(w, JoinSpace(ws));
  }

  /** str.split() undoes " ".join on tokens: the round trip behind every labelled line. */
  lemma {:induction false} WordsOfJoin(ws: seq<string>)
    requires forall i :: 0 <= i < |ws| ==> IsToken(ws[i])
    ensures Words(JoinSpace(ws)) == ws
  {
    if ws == [] {
    } else if |ws| == 1 {
      WordsOfToken(ws[0]);
    } else {
      var tail := ws[1..];
      assert Words(JoinSpace(tail)) == tail by {
        assert forall i :: 0 <= i < |tail| ==> tail[i] == ws[i + 1];
        WordsOfJoin(tail);
      }
      assert Words(JoinSpace([ws[0]] + tail)) == [ws[0]] + tail by {
        WordsOfJoinCons(ws[0], tail);
      }
      assert ws == [ws[0]] + tail;
    }
  }

  /** A joined line of tokens begins with the first token and ends with the last. */
  lemma {:induction false} JoinSpaceEnds(ws: seq<string>)
    requires |ws| > 0 && forall i :: 0 <= i < |ws| ==> IsToken(ws[i])
    ensures var j := JoinSpace(ws); var last := ws[|ws| - 1];
      j != [] && ws[0] != [] && last != [] && j[0] == ws[0][0] && j[|j| - 1] == last[|last| - 1]
  {
    if |ws| > 1 {
      JoinSpaceEnds(ws[1..]);
      assert ws[1..][|ws| - 2] == ws[|ws| - 1];
    }
  }

  /** A line of tokens joined by spaces is unchanged by strip and splits back into its tokens. */
  lemma {:induction false} JoinSpaceReads(ws: seq<string>)
    requires |ws| > 0 && forall i :: 0 <= i < |ws| ==> IsToken(ws[i])
    ensures Strip(JoinSpace(ws)) == JoinSpace(ws)
    ensures Words(Strip(JoinSpace(ws))) == ws
  {
    JoinSpaceEnds(ws);
    StripUnchanged(JoinSpace(ws));
    WordsOfJoin(ws);
  }

  predicate OccursAt(s: string, pat: string, i: nat) {
    i + |pat| <= |s| && s[i..i + |pat|] == pat
  }

  /** An occurrence inside a prefix of s is an occurrence in s. */
  lemma {:induction false} OccursInPrefix(s: string, pat: string, n: nat, i: nat)
    requires n <= |s| && OccursAt(s[..n], pat, i)
    ensures OccursAt(s, pat, i)
  {
    assert s[..n][i..i + |pat|] == s[i..i + |pat|];
  }

  /** The first occurrence of pat in s at or after from (str.find). */
  function FindFrom(s: string, pat: string, from: nat): (r: Option<nat>)
    ensures r.Some? ==> from <= r.value && OccursAt(s, pat, r.value)
    ensures r.Some? ==> forall i :: from <= i < r.value ==> !OccursAt(s, pat, i)
    ensures r.None? ==> forall i :: from <= i ==> !OccursAt(s, pat, i)
    decreases |s| - from
  {
    if from + |pat| > |s| then None
    else if OccursAt(s, pat, from) then Some(from)
    else FindFrom(s, pat, from + 1)
  }

  function Find(s: string, pat: string): Option<nat> {
    FindFrom(s, pat, 0)
  }

  /** Python's `pat in s` on strings. */
  predicate Contains(s: string, pat: string) {
    Find(s, pat).Some?
  }

  lemma {:induction false} ContainsWhenOccurs(s: string, pat: string, i: nat)
    requires OccursAt(s, pat, i)
    ensures Contains(s, pat)
  {
  }

  /** When the first occurrence is known, Find returns it. */
  lemma {:induction false} FindIsFirst(s: string, pat: string, i: nat)
    requires OccursAt(s, pat, i)
    requires forall j :: 0 <= j < i ==> !OccursAt(s, pat, j)
    ensures Find(s, pat) == Some(i)
  {
  }

  /** str.startswith(p). */
  predicate StartsWith(s: string, p: string) {
    |p| <= |s| && s[..|p|] == p
  }

  predicate EndsWith(s: string, p: string) {
    |p| <= |s| && s[|s| - |p|..] == p
  }

  // ---------------- Decimal digits ----------------

  /** The ASCII digits 0-9 (regex \d and int() are modelled on these only). */
  predicate IsDigit(c: char) {
    '0' <= c <= '9'
  }

  predicate AllDigits(s: string) {
    forall i :: 0 <= i < |s| ==> IsDigit(s[i])
  }

  function DigitValue(c: char): (d: nat)
    requires IsDigit(c)
    ensures d < 10
  {
    c as int - '0' as int
  }

  function DigitChar(d: nat): (c: char)
    requires d < 10
    ensures IsDigit(c) && DigitValue(c) == d
  {
    ('0' as int + d) as char
  }

  /** int(s) for a string of digits; leading zeros are accepted. */
  function DigitsValue(s: string): nat
    requires AllDigits(s)
  {
    if s == [] then 0 else 10 * DigitsValue(s[..|s| - 1]) + DigitValue(s[|s| - 1])
  }

  /** Length of the longest prefix of digits. */
  function DigitRun(s: string): (n: nat)
    ensures n <= |s|
    ensures AllDigits(s[..n])
    ensures n == |s| || !IsDigit(s[n])
  {
    if s == [] || !IsDigit(s[0]) then 0
    else
      var m := DigitRun(s[1..]);
      assert s[..1 + m] == [s[0]] + s[1..][..m];
      1 + m
  }

  lemma {:induction false} DigitRunOf(digits: string, rest: string)
    requires AllDigits(digits)
    requires rest == [] || !IsDigit(rest[0])
    ensures DigitRun(digits + rest) == |digits|
    decreases |digits|
  {
    if digits == [] {
      assert digits + rest == rest;
    } else {
      assert (digits + rest)[1..] == digits[1..] + rest;
      DigitRunOf(digits[1..], rest);
    }
  }

  /**
   * The decimal text of a natural number, as Java's Integer.toString, %d and
   * Python's str(int) print it: digits only, no leading zero.
   */
  function NatToString(n: nat): (s: string)
    ensures s != [] && AllDigits(s)
    ensures |s| == 1 || s[0] != '0'
    ensures DigitsValue(s) == n
  {
    if n < 10 then [DigitChar(n)]
    else
      var prefix := NatToString(n / 10);
      var s := prefix + [DigitChar(n % 10)];
      assert s[..|s| - 1] == prefix;
      s
  }

  // ---------------- Lines ----------------

  /**
   * The lines of a text as Python's `for line in f` yields them, without the
   * '\n' terminators (every reader strips them): the text is cut at each '\n'
   * and an empty piece after a final '\n' is not a line.
   */
  function SplitLines(s: string): seq<string>
    decreases |s|
  {
    if s == [] then []
    else
      match Find(s, "\n")
      case None => [s]
      case Some(i) => [s[..i]] + SplitLines(s[i + 1..])
  }

  /** Lines each followed by '\n', as a StringBuilder fed with "...%n" receives them. */
  function JoinLines(ls: seq<string>): string {
    if ls == [] then "" else ls[0] + "\n" + JoinLines(ls[1..])
  }

  /** Appending one more line to the builder. */
  lemma {:induction false} JoinLinesSnoc(ls: seq<string>, l: string)
    ensures JoinLines(ls + [l]) == JoinLines(ls) + l + "\n"
  {
    if ls != [] {
      JoinLinesSnoc(ls[1..], l);
      assert (ls + [l])[1..] == ls[1..] + [l];
    }
  }

  /** A StringBuilder filled by appending each line and a line break in turn. */
  method AppendLines(lines: seq<string>) returns (sb: string)
    ensures sb == JoinLines(lines)
  {
    sb := "";
    for i := 0 to |lines|
      invariant sb == JoinLines(lines[..i])
    {
      JoinLinesSnoc(lines[..i], lines[i]);
      assert lines[..i + 1] == lines[..i] + [lines[i]];
      sb := sb + lines[i] + "\n";
    }
    assert lines[..|lines|] == lines;
  }

  predicate NoNewline(s: string) {
    forall i :: 0 <= i < |s| ==> s[i] != '\n'
  }

  lemma {:induction false} NoNewlineSeven(l0: string, l1: string, l2: string, l3: string, l4: string, l5: string, l6: string)
    requires NoNewline(l0) && NoNewline(l1) && NoNewline(l2) && NoNewline(l3)
    requires NoNewline(l4) && NoNewline(l5) && NoNewline(l6)
    ensures var ls := [l0, l1, l2, l3, l4, l5, l6];
      forall i :: 0 <= i < |ls| ==> NoNewline(ls[i])
  {
    var ls := [l0, l1, l2, l3, l4, l5, l6];
    forall i | 0 <= i < |ls|
      ensures NoNewline(ls[i])
    {
      if i == 0 { assert ls[i] == l0; } else if i == 1 { assert ls[i] == l1; }
      else if i == 2 { assert ls[i] == l2; } else if i == 3 { assert ls[i] == l3; }
      else if i == 4 { assert ls[i] == l4; } else if i == 5 { assert ls[i] == l5; }
      else { assert ls[i] == l6; }
    }
  }

  lemma {:induction false} NoNewlineConcat(a: string, b: string)
    requires NoNewline(a) && NoNewline(b)
    ensures NoNewline(a + b)
  {
    forall i | 0 <= i < |a + b| ensures (a + b)[i] != '\n' {
      if i >= |a| {
        assert (a + b)[i] == b[i - |a|];
      }
    }
  }

  lemma {:induction false} DigitsNoNewline(s: string)
    requires AllDigits(s)
    ensures NoNewline(s)
  {
    forall i | 0 <= i < |s| ensures s[i] != '\n' {
      assert IsDigit(s[i]);
    }
  }

  /** Reading back line by line what was written line by line. */
  lemma {:induction false} SplitJoinLines(ls: seq<string>)
    requires forall i :: 0 <= i < |ls| ==> NoNewline(ls[i])
    ensures SplitLines(JoinLines(ls)) == ls
  {
    if ls != [] {
      var l := ls[0];
      var s := JoinLines(ls);
      assert s == l + "\n" + JoinLines(ls[1..]);
      assert OccursAt(s, "\n", |l|) by {
        assert s[|l|..|l| + 1] == "\n";
      }
      forall j | 0 <= j < |l|
        ensures !OccursAt(s, "\n", j)
      {
        assert s[j] == l[j];
      }
      FindIsFirst(s, "\n", |l|);
      assert s[..|l|] == l;
      assert s[|l| + 1..] == JoinLines(ls[1..]);
      SplitJoinLines(ls[1..]);
    }
  }
}
