/** The few JavaScript string operations the application relies on: `trim`, the `\s` class,
    `Number#toString` on non-negative integers, `padStart`, `toUpperCase`, `startsWith`,
    `includes`, `join` and `replace(/\s+/g, …)`. */
module Text {

  /** The code points JavaScript counts as WhiteSpace or LineTerminator (matched by `trim` and `\s`). */
  predicate IsSpace(c: char) {
    || c == ' ' || c == '\t' || c == '\n' || c == '\r' || c == '\U{B}' || c == '\U{C}'
    || c == '\U{A0}' || c == '\U{1680}' || ('\U{2000}' <= c <= '\U{200A}')
    || c == '\U{2028}' || c == '\U{2029}' || c == '\U{202F}' || c == '\U{205F}'
    || c == '\U{3000}' || c == '\U{FEFF}'
  }

  ghost predicate AllSpace(s: string) {
    forall i :: 0 <= i < |s| ==> IsSpace(s[i])
  }

  /** `trimStart`. */
  function TrimStart(s: string): string {
    if s != [] && IsSpace(s[0]) then TrimStart(s[1..]) else s
  }

  /** `trimEnd`. */
  function TrimEnd(s: string): string {
    if s != [] && IsSpace(s[|s| - 1]) then TrimEnd(s[..|s| - 1]) else s
  }

  /** `trimStart` drops the leading white space and nothing else. */
  lemma {:induction false} TrimStartDropsSpace(s: string)
    ensures var r := TrimStart(s);
            && |r| <= |s| && r == s[|s| - |r|..]
            && AllSpace(s[..|s| - |r|])
            && (r == [] || !IsSpace(r[0]))
    decreases |s|
  {
    if s != [] && IsSpace(s[0]) {
      TrimStartDropsSpace(s[1..]);
      var r := TrimStart(s[1..]);
      assert s[1..][..|s| - 1 - |r|] == s[1..|s| - |r|];
      assert forall i :: 1 <= i < |s| - |r| ==> s[i] == s[1..][..|s| - 1 - |r|][i - 1];
    }
  }

  /** `trimEnd` drops the trailing white space and nothing else. */
  lemma {:induction false} TrimEndDropsSpace(s: string)
    ensures var r := TrimEnd(s);
            && |r| <= |s| && r == s[..|r|]
            && AllSpace(s[|r|..])
            && (r == [] || !IsSpace(r[|r| - 1]))
    decreases |s|
  {
    if s != [] && IsSpace(s[|s| - 1]) {
      TrimEndDropsSpace(s[..|s| - 1]);
      var r := TrimEnd(s[..|s| - 1]);
      assert forall i :: |r| <= i < |s| - 1 ==> s[i] == s[..|s| - 1][|r|..][i - |r|];
    }
  }

  /** `String.prototype.trim`. */
  function Trim(s: string): string {
    TrimEnd(TrimStart(s))
  }

  /** `!s.trim()`: the text is empty once trimmed. */
  predicate IsBlank(s: string) {
    Trim(s) == ""
  }

  /** A text is blank exactly when every one of its characters is white space. */
  lemma BlankIffAllSpace(s: string)
    ensures IsBlank(s) <==> AllSpace(s)
  {
    var t := TrimStart(s);
    TrimStartDropsSpace(s);
    TrimEndDropsSpace(t);
    if AllSpace(s) {
      assert AllSpace(s[|s| - |t|..]);
      assert t == [];
    }
    if IsBlank(s) {
      assert TrimEnd(t) == [] && t[0..] == t;
      assert AllSpace(t);
      assert t == [];
      assert s == s[..|s| - |t|];
    }
  }

  /** A non-empty `trim` result begins and ends with a character that is not white space. */
  lemma TrimmedEnds(s: string)
    requires !IsBlank(s)
    ensures !IsSpace(Trim(s)[0]) && !IsSpace(Trim(s)[|Trim(s)| - 1])
  {
    var t := TrimStart(s);
    var r := TrimEnd(t);
    TrimStartDropsSpace(s);
    TrimEndDropsSpace(t);
    assert t[0] == r[0];
  }

  // ---------------------------------------------------------------- decimal numbers

  predicate IsDigit(c: char) {
    '0' <= c <= '9'
  }

  predicate AllDigits(s: string) {
    forall i :: 0 <= i < |s| ==> IsDigit(s[i])
  }

  function Digit(d: nat): (c: char)
    requires d < 10
    ensures IsDigit(c) && c as int - '0' as int == d
  {
    ('0' as int + d) as char
  }

  /** The number a string of decimal digits denotes (the reading of a code or a counter). */
  function DecimalValue(s: string): nat
    requires AllDigits(s)
  {
    if s == [] then 0 else DecimalValue(s[..|s| - 1]) * 10 + (s[|s| - 1] as int - '0' as int)
  }

  /** `n.toString()` for a non-negative integer: its decimal digits, without leading zeros. */
  function DecimalString(n: nat): (r: string)
    ensures |r| >= 1 && AllDigits(r)
    ensures DecimalValue(r) == n
    ensures r[0] == '0' ==> n == 0
  {
    if n < 10 then [Digit(n)]
    else
      var p := DecimalString(n / 10);
      var r := p + [Digit(n % 10)];
      assert r[..|r| - 1] == p;
      r
  }

  function Pow10(k: nat): nat {
    if k == 0 then 1 else 10 * Pow10(k - 1)
  }

  /** A number of k digits prints as exactly k characters. */
  lemma {:induction false} DecimalStringLength(n: nat, k: nat)
    requires 1 <= k && n < Pow10(k)
    requires k == 1 || Pow10(k - 1) <= n
    ensures |DecimalString(n)| == k
  {
    if k > 1 {
      assert Pow10(k) == 10 * Pow10(k - 1);
      assert n / 10 < Pow10(k - 1);
      if k > 2 {
        assert Pow10(k - 1) == 10 * Pow10(k - 2);
        assert Pow10(k - 2) <= n / 10;
      }
      DecimalStringLength(n / 10, k - 1);
    }
  }

  /** Distinct numbers print differently. */
  lemma DecimalRoundTrip(a: nat, b: nat)
    requires DecimalString(a) == DecimalString(b)
    ensures a == b
  {
    assert DecimalValue(DecimalString(a)) == a;
  }

  /** A leading zero does not change the value a string of digits denotes. */
  lemma {:induction false} LeadingZero(s: string)
    requires AllDigits(s)
    ensures AllDigits(['0'] + s) && DecimalValue(['0'] + s) == DecimalValue(s)
    decreases |s|
  {
    var z := ['0'] + s;
    if s != [] {
      assert z[..|z| - 1] == ['0'] + s[..|s| - 1];
      LeadingZero(s[..|s| - 1]);
    }
  }

  /** `s.padStart(n, c)` with a one-character pad: copies of c before s up to length n. */
  function PadStart(s: string, n: nat, c: char): (r: string)
    ensures |r| == if |s| >= n then |s| else n
    ensures r[|r| - |s|..] == s
    ensures forall i :: 0 <= i < |r| - |s| ==> r[i] == c
  {
    if |s| >= n then s else seq(n - |s|, _ => c) + s
  }

  // ---------------------------------------------------------------- case

  /** Upper-casing of one character, for the Latin letters a-z. */
  function UpperChar(c: char): char {
    if 'a' <= c <= 'z' then (c as int - 32) as char else c
  }

  /** `toUpperCase`, letter by letter. */
  function ToUpper(s: string): (r: string)
    ensures |r| == |s| && forall i :: 0 <= i < |s| ==> r[i] == UpperChar(s[i])
  {
    seq(|s|, i requires 0 <= i < |s| => UpperChar(s[i]))
  }

  /** Upper-casing leaves a string of digits as it is. */
  lemma UpperKeepsDigits(s: string)
    requires AllDigits(s)
    ensures ToUpper(s) == s
  {
  }

  // ---------------------------------------------------------------- searching

  /** `s.startsWith(p)`. */
  predicate StartsWith(s: string, p: string) {
    |p| <= |s| && s[..|p|] == p
  }

  /** t occurs in s starting at position i. */
  predicate OccursAt(s: string, t: string, i: int) {
    0 <= i <= |s| - |t| && s[i..i + |t|] == t
  }

  /** `s.includes(t)`: t occurs at some position of s. */
  predicate Includes(s: string, t: string) {
    exists i | 0 <= i <= |s| - |t| :: OccursAt(s, t, i)
  }

  /** A text placed between any two texts is found by `includes`. */
  lemma IncludesInfix(a: string, t: string, b: string)
    ensures Includes(a + t + b, t)
  {
    assert (a + t + b)[|a|..|a| + |t|] == t;
    assert OccursAt(a + t + b, t, |a|);
  }

  /** The pieces written one after another. */
  function Concat(pieces: seq<string>): (r: string)
    ensures pieces == [] ==> r == ""
  {
    if pieces == [] then "" else pieces[0] + Concat(pieces[1..])
  }

  lemma {:induction false} ConcatSplits(pieces: seq<string>, i: nat)
    requires i < |pieces|
    ensures Concat(pieces) == Concat(pieces[..i]) + pieces[i] + Concat(pieces[i + 1..])
    decreases i
  {
    if i > 0 {
      ConcatSplits(pieces[1..], i - 1);
      assert pieces[1..][..i - 1] == pieces[1..i];
      assert pieces[1..][i..] == pieces[i + 1..];
      assert Concat(pieces[..i]) == pieces[0] + Concat(pieces[1..i]) by {
        assert pieces[..i][1..] == pieces[1..i];
      }
    } else {
      assert pieces[..0] == [] && pieces[1..] == pieces[i + 1..];
    }
  }

  /** Every piece is found in the concatenation. */
  lemma IncludesPiece(pieces: seq<string>, i: nat)
    requires i < |pieces|
    ensures Includes(Concat(pieces), pieces[i])
  {
    ConcatSplits(pieces, i);
    IncludesInfix(Concat(pieces[..i]), pieces[i], Concat(pieces[i + 1..]));
  }

  /** `lines.join(sep)`. */
  function JoinWith(lines: seq<string>, sep: string): string {
    if |lines| == 0 then ""
    else if |lines| == 1 then lines[0]
    else lines[0] + sep + JoinWith(lines[1..], sep)
  }

  // ---------------------------------------------------------------- white-space runs

  /** `s.replace(/\s+/g, rep)`, reading left to right; `inRun` is whether the previous
      character was white space. */
  function CollapseSpaces(s: string, rep: string, inRun: bool): string
    decreases |s|
  {
    if s == [] then []
    else if IsSpace(s[0]) then (if inRun then "" else rep) + CollapseSpaces(s[1..], rep, true)
    else [s[0]] + CollapseSpaces(s[1..], rep, false)
  }

  function ReplaceSpaceRuns(s: string, rep: string): string {
    CollapseSpaces(s, rep, false)
  }

  predicate NoSpace(s: string) {
    forall i :: 0 <= i < |s| ==> !IsSpace(s[i])
  }

  /** With a replacement free of white space, the result holds no white space. */
  lemma {:induction false} CollapseRemovesSpace(s: string, rep: string, inRun: bool)
    requires NoSpace(rep)
    ensures NoSpace(CollapseSpaces(s, rep, inRun))
    decreases |s|
  {
    if s != [] {
      CollapseRemovesSpace(s[1..], rep, IsSpace(s[0]));
    }
  }

  /** Text without white space is left alone. */
  lemma {:induction false} CollapseKeepsPlainText(s: string, rep: string, inRun: bool)
    requires NoSpace(s)
    ensures CollapseSpaces(s, rep, inRun) == s
    decreases |s|
  {
    if s != [] {
      assert NoSpace(s[1..]);
      CollapseKeepsPlainText(s[1..], rep, false);
      assert s == [s[0]] + s[1..];
    }
  }

  /** Whether a run of white space is open after reading s, starting in state inRun. */
  function EndState(s: string, inRun: bool): bool
    decreases |s|
  {
    if s == [] then inRun else EndState(s[1..], IsSpace(s[0]))
  }

  /** After a non-empty text the run is open exactly when its last character is white space. */
  lemma {:induction false} EndStateIsLast(s: string, inRun: bool)
    ensures EndState(s, inRun) == if s == [] then inRun else IsSpace(s[|s| - 1])
    decreases |s|
  {
    if s != [] {
      EndStateIsLast(s[1..], IsSpace(s[0]));
      if s[1..] != [] {
        assert s[1..][|s[1..]| - 1] == s[|s| - 1];
      }
    }
  }

  /** Reading a + t: t is read in the state the end of a leaves. */
  lemma {:induction false} CollapseAppend(a: string, t: string, rep: string, inRun: bool)
    ensures CollapseSpaces(a + t, rep, inRun) == CollapseSpaces(a, rep, inRun) + CollapseSpaces(t, rep, EndState(a, inRun))
    decreases |a|
  {
    if a == [] {
      assert a + t == t;
    } else {
      assert (a + t)[0] == a[0] && (a + t)[1..] == a[1..] + t;
      CollapseAppend(a[1..], t, rep, IsSpace(a[0]));
      var front, back := CollapseSpaces(a[1..], rep, IsSpace(a[0])), CollapseSpaces(t, rep, EndState(a, inRun));
      var lead := if !IsSpace(a[0]) then [a[0]] else if inRun then "" else rep;
      assert lead + (front + back) == lead + front + back;
    }
  }

  /** A run of white space between two other characters becomes one replacement. */
  lemma CollapseRun(a: string, w: string, b: string, rep: string)
    requires w != [] && AllSpace(w)
    requires a == [] || !IsSpace(a[|a| - 1])
    requires b == [] || !IsSpace(b[0])
    ensures ReplaceSpaceRuns(a + w + b, rep) == ReplaceSpaceRuns(a, rep) + rep + ReplaceSpaceRuns(b, rep)
  {
    CollapseAppend(a, w + b, rep, false);
    assert a + w + b == a + (w + b);
    EndStateIsLast(a, false);
    CollapseAppend(w, b, rep, false);
    EndStateIsLast(w, false);
    AllSpaceRun(w, rep);
    var back := CollapseSpaces(b, rep, false);
    if b != [] {
      assert CollapseSpaces(b, rep, true) == [b[0]] + CollapseSpaces(b[1..], rep, false) == back;
    }
    assert CollapseSpaces(w + b, rep, false) == rep + back;
    var front := CollapseSpaces(a, rep, false);
    assert front + (rep + back) == front + rep + back;
  }

  /** A run of white space alone becomes one replacement. */
  lemma {:induction false} AllSpaceRun(w: string, rep: string)
    requires w != [] && AllSpace(w)
    ensures CollapseSpaces(w, rep, false) == rep
  {
    AllSpaceInRun(w[1..], rep);
  }

  lemma {:induction false} AllSpaceInRun(w: string, rep: string)
    requires AllSpace(w)
    ensures CollapseSpaces(w, rep, true) == ""
    decreases |w|
  {
    if w != [] {
      AllSpaceInRun(w[1..], rep);
    }
  }
}
