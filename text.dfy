/**
 * The string operations the commands rely on: Go's `strings.Fields`,
 * `strings.TrimSpace` and `strings.Title`, and decimal formatting of an int.
 * Strings are sequences of Unicode code points.
 */
module Text {

  /** Go's `unicode.IsSpace`. */
  predicate IsSpace(c: char) {
    c == ' ' || c == '\t' || c == '\n' || c == '\r' || c == '\U{B}' || c == '\U{C}'
    || c == '\U{85}' || c == '\U{A0}' || c == '\U{1680}'
    || ('\U{2000}' <= c <= '\U{200A}')
    || c == '\U{2028}' || c == '\U{2029}' || c == '\U{202F}' || c == '\U{205F}' || c == '\U{3000}'
  }

  predicate NoSpace(w: string) {
    forall i :: 0 <= i < |w| ==> !IsSpace(w[i])
  }

  predicate AllSpace(w: string) {
    forall i :: 0 <= i < |w| ==> IsSpace(w[i])
  }

  /** A field: a non-empty run of non-space characters. */
  predicate IsWord(w: string) {
    w != [] && NoSpace(w)
  }

  /** Length of the longest prefix of `s` without white space. */
  function WordLength(s: string): (n: nat)
    ensures n <= |s|
    ensures NoSpace(s[..n])
    ensures n < |s| ==> IsSpace(s[n])
  {
    if s == [] || IsSpace(s[0]) then 0
    else
      var n := 1 + WordLength(s[1..]);
      assert s[..n] == [s[0]] + s[1..][..n - 1];
      n
  }

  /**
   * Go's `strings.Fields`: the maximal runs of non-space characters, in order.
   */
  function Fields(s: string): (fs: seq<string>)
    ensures forall i :: 0 <= i < |fs| ==> IsWord(fs[i])
    decreases |s|
  {
    if s == [] then []
    else if IsSpace(s[0]) then Fields(s[1..])
    else
      var n := WordLength(s);
      [s[..n]] + Fields(s[n..])
  }

  /** The words separated by single blanks (the partner of `Fields`). */
  function Join(ws: seq<string>): string {
    if ws == [] then ""
    else if |ws| == 1 then ws[0]
    else ws[0] + " " + Join(ws[1..])
  }

  lemma {:induction false} WordLengthOfWord(w: string, t: string)
    requires NoSpace(w)
    requires t == [] || IsSpace(t[0])
    ensures WordLength(w + t) == |w|
    decreases |w|
  {
    if w != [] {
      assert (w + t)[1..] == w[1..] + t;
      WordLengthOfWord(w[1..], t);
    } else {
      assert w + t == t;
    }
  }

  /** White space alone has no fields. */
  lemma {:induction false} FieldsOfSpace(ws: string)
    requires AllSpace(ws)
    ensures Fields(ws) == []
    decreases |ws|
  {
    if ws != [] {
      FieldsOfSpace(ws[1..]);
    }
  }

  /** Leading white space does not change the fields. */
  lemma {:induction false} FieldsIgnoresLeadingSpace(ws: string, s: string)
    requires AllSpace(ws)
    ensures Fields(ws + s) == Fields(s)
    decreases |ws|
  {
    if ws != [] {
      assert (ws + s)[1..] == ws[1..] + s;
      FieldsIgnoresLeadingSpace(ws[1..], s);
    } else {
      assert ws + s == s;
    }
  }

  /** Trailing white space does not change the fields. */
  lemma {:induction false} FieldsIgnoresTrailingSpace(s: string, ws: string)
    requires AllSpace(ws)
    ensures Fields(s + ws) == Fields(s)
    decreases |s|
  {
    if s == [] {
      assert s + ws == ws;
      FieldsOfSpace(ws);
    } else if IsSpace(s[0]) {
      assert (s + ws)[1..] == s[1..] + ws;
      FieldsIgnoresTrailingSpace(s[1..], ws);
    } else {
      var n := WordLength(s);
      assert s[..n] + s[n..] == s;
      WordLengthOfWord(s[..n], s[n..] + ws);
      assert s + ws == s[..n] + (s[n..] + ws);
      assert (s + ws)[..n] == s[..n];
      assert (s + ws)[n..] == s[n..] + ws;
      FieldsIgnoresTrailingSpace(s[n..], ws);
    }
  }

  /** A run of white space between two parts counts as a single blank. */
  lemma {:induction false} FieldsCollapsesSpace(a: string, ws: string, b: string)
    requires ws != [] && AllSpace(ws)
    ensures Fields(a + ws + b) == Fields(a + " " + b)
    decreases |a|
  {
    if a == [] {
      assert a + ws + b == ws + b;
      assert a + " " + b == " " + b;
      FieldsIgnoresLeadingSpace(ws, b);
      FieldsIgnoresLeadingSpace(" ", b);
    } else if IsSpace(a[0]) {
      assert (a + ws + b)[1..] == a[1..] + ws + b;
      assert (a + " " + b)[1..] == a[1..] + " " + b;
      FieldsCollapsesSpace(a[1..], ws, b);
    } else {
      var n := WordLength(a);
      assert a[..n] + a[n..] == a;
      var x, y := a + ws + b, a + " " + b;
      assert x == a[..n] + (a[n..] + ws + b);
      assert y == a[..n] + (a[n..] + " " + b);
      WordLengthOfWord(a[..n], a[n..] + ws + b);
      WordLengthOfWord(a[..n], a[n..] + " " + b);
      assert x[..n] == a[..n] && y[..n] == a[..n];
      assert x[n..] == a[n..] + ws + b;
      assert y[n..] == a[n..] + " " + b;
      FieldsCollapsesSpace(a[n..], ws, b);
    }
  }

  /** Splitting words joined by blanks gives the words back. */
  lemma {:induction false} FieldsOfJoin(ws: seq<string>)
    requires forall i :: 0 <= i < |ws| ==> IsWord(ws[i])
    ensures Fields(Join(ws)) == ws
    decreases |ws|
  {
    if ws == [] {
    } else if |ws| == 1 {
      WordLengthOfWord(ws[0], "");
      assert ws[0] + "" == ws[0];
      assert ws[0][|ws[0]|..] == [];
    } else {
      var w, rest := ws[0], Join(ws[1..]);
      var s := w + " " + rest;
      assert s == w + (" " + rest);
      WordLengthOfWord(w, " " + rest);
      assert s[..|w|] == w;
      assert s[|w|..] == " " + rest;
      assert (" " + rest)[1..] == rest;
      FieldsOfJoin(ws[1..]);
      assert Fields(s) == [w] + ws[1..];
    }
  }

  /** Removes leading white space. */
  function TrimLeft(s: string): string {
    if s != [] && IsSpace(s[0]) then TrimLeft(s[1..]) else s
  }

  /** Removes trailing white space. */
  function TrimRight(s: string): string {
    if s != [] && IsSpace(s[|s| - 1]) then TrimRight(s[..|s| - 1]) else s
  }

  /** `TrimLeft` drops an all-space prefix and keeps the rest, which starts with a non-space. */
  lemma {:induction false} TrimLeftSplits(s: string)
    ensures var r := TrimLeft(s);
      && |r| <= |s| && r == s[|s| - |r|..]
      && AllSpace(s[..|s| - |r|])
      && (r != [] ==> !IsSpace(r[0]))
    decreases |s|
  {
    if s != [] && IsSpace(s[0]) {
      var t := s[1..];
      var r := TrimLeft(t);
      TrimLeftSplits(t);
      assert TrimLeft(s) == r;
      var k := |t| - |r|;
      assert |r| <= |s| - 1;
      assert t[k..] == s[1 + k..];
      var dropped, rest := s[..1 + k], t[..k];
      assert AllSpace(rest);
      forall i | 0 <= i < |dropped|
        ensures IsSpace(dropped[i])
      {
        if i > 0 {
          assert dropped[i] == rest[i - 1];
        }
      }
    }
  }

  /** `TrimRight` drops an all-space suffix and keeps the rest, which ends with a non-space. */
  lemma {:induction false} TrimRightSplits(s: string)
    ensures var r := TrimRight(s);
      && |r| <= |s| && r == s[..|r|]
      && AllSpace(s[|r|..])
      && (r != [] ==> !IsSpace(r[|r| - 1]))
    decreases |s|
  {
    if s != [] && IsSpace(s[|s| - 1]) {
      var r := TrimRight(s[..|s| - 1]);
      TrimRightSplits(s[..|s| - 1]);
      assert s[|r|..] == s[..|s| - 1][|r|..] + [s[|s| - 1]];
    }
  }

  /**
   * Go's `strings.TrimSpace`. The result is empty exactly when `s` is all
   * white space, and otherwise neither starts nor ends with white space.
   */
  function TrimSpace(s: string): (r: string)
    ensures exists i, j :: 0 <= i <= j <= |s| && r == s[i..j] && AllSpace(s[..i]) && AllSpace(s[j..])
    ensures r == [] <==> AllSpace(s)
    ensures r != [] ==> !IsSpace(r[0]) && !IsSpace(r[|r| - 1])
  {
    TrimSpaceEmpty(s);
    TrimSpaceSlice(s);
    TrimRight(TrimLeft(s))
  }

  lemma AllSpaceConcat(a: string, b: string)
    requires AllSpace(a) && AllSpace(b)
    ensures AllSpace(a + b)
  {
    forall i | 0 <= i < |a + b| ensures IsSpace((a + b)[i]) {
      if i < |a| { assert (a + b)[i] == a[i]; } else { assert (a + b)[i] == b[i - |a|]; }
    }
  }

  lemma NotAllSpace(s: string, i: nat)
    requires i < |s| && !IsSpace(s[i])
    ensures !AllSpace(s)
  {
  }

  /** A part of `s` between two all-space ends is a slice of it. */
  lemma SpaceAround(s: string, l: string, r: string, k: nat)
    requires k <= |s| && l == s[k..] && AllSpace(s[..k])
    requires |r| <= |l| && r == l[..|r|] && AllSpace(l[|r|..])
    ensures exists i, j :: 0 <= i <= j <= |s| && r == s[i..j] && AllSpace(s[..i]) && AllSpace(s[j..])
  {
    var j := k + |r|;
    assert r == s[k..j];
    assert s[j..] == l[|r|..];
  }

  /** Trimming keeps a slice of `s` and drops only white space around it. */
  lemma TrimSpaceSlice(s: string)
    ensures var r := TrimRight(TrimLeft(s));
      exists i, j :: 0 <= i <= j <= |s| && r == s[i..j] && AllSpace(s[..i]) && AllSpace(s[j..])
  {
    var l := TrimLeft(s);
    TrimLeftSplits(s);
    TrimRightSplits(l);
    SpaceAround(s, l, TrimRight(l), |s| - |l|);
  }

  lemma TrimSpaceEmpty(s: string)
    ensures TrimRight(TrimLeft(s)) == [] <==> AllSpace(s)
    ensures var r := TrimRight(TrimLeft(s));
      r != [] ==> !IsSpace(r[0]) && !IsSpace(r[|r| - 1])
  {
    var l := TrimLeft(s);
    var r := TrimRight(l);
    var k := |s| - |l|;
    TrimLeftSplits(s);
    TrimRightSplits(l);
    assert s == s[..k] + l;
    if r == [] {
      assert l[|r|..] == l;
      AllSpaceConcat(s[..k], l);
    } else {
      assert r[0] == l[0];
      assert s[k] == l[0];
      NotAllSpace(s, k);
    }
  }

  /** ASCII letters, digits and `_` join words; so does every other non-space code point. */
  predicate IsSeparator(c: char) {
    if c <= '\U{7F}' then
      !(('0' <= c <= '9') || ('a' <= c <= 'z') || ('A' <= c <= 'Z') || c == '_')
    else IsSpace(c)
  }

  /** Title case of one code point: ASCII lower-case letters only. */
  function ToTitle(c: char): (t: char)
    ensures 'a' <= c <= 'z' ==> 'A' <= t <= 'Z'
    ensures !('a' <= c <= 'z') ==> t == c
  {
    if 'a' <= c <= 'z' then (c as int - 'a' as int + 'A' as int) as char else c
  }

  /** Whether the code point at `i` starts a word for `strings.Title`. */
  predicate StartsWord(s: string, i: nat)
    requires i < |s|
  {
    i == 0 || IsSeparator(s[i - 1])
  }

  /**
   * Go's `strings.Title`: every code point that starts the string or follows
   * a separator is title-cased, the others are kept.
   */
  function Title(s: string): (t: string)
    ensures |t| == |s|
    ensures forall i :: 0 <= i < |s| && !StartsWord(s, i) ==> t[i] == s[i]
    ensures forall i :: 0 <= i < |s| && StartsWord(s, i) ==> t[i] == ToTitle(s[i])
  {
    seq(|s|, i requires 0 <= i < |s| => if StartsWord(s, i) then ToTitle(s[i]) else s[i])
  }

  function DigitChar(d: nat): (c: char)
    requires d < 10
    ensures '0' <= c <= '9'
  {
    ('0' as int + d) as char
  }

  /** Decimal digits of `n`, as `%v` prints a non-negative int. */
  function NatToString(n: nat): (s: string)
    ensures s != [] && forall i :: 0 <= i < |s| ==> '0' <= s[i] <= '9'
    ensures |s| > 1 ==> s[0] != '0'
  {
    if n < 10 then [DigitChar(n)] else NatToString(n / 10) + [DigitChar(n % 10)]
  }

  /** `%v` of an int: a minus sign before the digits of a negative value. */
  function IntToString(i: int): (s: string)
    ensures IsWord(s)
  {
    if i < 0 then "-" + NatToString(-i) else NatToString(i)
  }

  /** The value of a numeral of decimal digits (the partner of `NatToString`). */
  function DecimalValue(s: string): nat {
    if s == [] then 0
    else
      var d := s[|s| - 1] as int - '0' as int;
      DecimalValue(s[..|s| - 1]) * 10 + (if 0 <= d < 10 then d else 0)
  }

  /** The value of a decimal numeral with an optional minus sign. */
  function IntValue(s: string): int {
    if s != [] && s[0] == '-' then -(DecimalValue(s[1..]) as int) else DecimalValue(s)
  }

  /** The digits `NatToString` prints denote the number. */
  lemma {:induction false} NatToStringValue(n: nat)
    ensures DecimalValue(NatToString(n)) == n
    decreases n
  {
    if n >= 10 {
      NatToStringValue(n / 10);
      var s := NatToString(n);
      assert s[..|s| - 1] == NatToString(n / 10);
    }
  }

  /** The numeral `IntToString` prints denotes the value, sign included. */
  lemma IntToStringValue(i: int)
    ensures IntValue(IntToString(i)) == i
  {
    if i < 0 {
      NatToStringValue(-i);
      assert ("-" + NatToString(-i))[1..] == NatToString(-i);
    } else {
      NatToStringValue(i);
    }
  }
}
