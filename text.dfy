/**
 * Python string operations the core relies on: `str.strip`, `str.split()`,
 * `str.replace`, `str.join`, `str.lower` (ASCII), decimal digits, the
 * whitespace-collapsing substitution `re.sub(r"\s+", " ", s)`, the
 * separator split `re.split(r"\s*" + re.escape(c) + r"\s*", s)` for a
 * one-character separator, and code-point order with sorting of string sets.
 */
module Text {

  import opened Values

  /** `str.isspace()` on one character; Python's `\s` matches the same set. */
  predicate IsSpace(c: char) {
    var n := c as int;
    (9 <= n <= 13) || (28 <= n <= 32) || n == 0x85 || n == 0xA0 || n == 0x1680
    || (0x2000 <= n <= 0x200A) || n == 0x2028 || n == 0x2029 || n == 0x202F
    || n == 0x205F || n == 0x3000
  }

  predicate NoSpace(s: string) {
    forall i :: 0 <= i < |s| ==> !IsSpace(s[i])
  }

  /** The characters of `s` that are not whitespace, in order. */
  function Visible(s: string): string {
    if s == [] then [] else (if IsSpace(s[0]) then [] else [s[0]]) + Visible(s[1..])
  }

  /** Number of whitespace characters at the start of `s`. */
  function LeadSpaces(s: string): (n: nat)
    ensures n <= |s| && (n == |s| || !IsSpace(s[n]))
  {
    if s != [] && IsSpace(s[0]) then 1 + LeadSpaces(s[1..]) else 0
  }

  lemma {:induction false} LeadSpacesAreSpaces(s: string)
    ensures forall i :: 0 <= i < LeadSpaces(s) ==> IsSpace(s[i])
    decreases |s|
  {
    if s != [] && IsSpace(s[0]) {
      LeadSpacesAreSpaces(s[1..]);
      assert forall i :: 1 <= i < LeadSpaces(s) ==> s[i] == s[1..][i - 1];
    }
  }

  /** Dropping leading whitespace keeps the visible characters. */
  lemma {:induction false} VisibleDrop(s: string, n: nat)
    requires n <= |s| && forall i :: 0 <= i < n ==> IsSpace(s[i])
    ensures Visible(s[n..]) == Visible(s)
    decreases n
  {
    if n > 0 {
      assert Visible(s) == Visible(s[1..]);
      assert s[1..][n - 1..] == s[n..];
      VisibleDrop(s[1..], n - 1);
    }
  }

  /** `s.lstrip()` */
  function LStrip(s: string): (r: string)
    ensures |r| <= |s| && r == s[|s| - |r|..]
    ensures r == [] || !IsSpace(r[0])
    ensures Visible(r) == Visible(s)
  {
    var n := LeadSpaces(s);
    LeadSpacesAreSpaces(s);
    VisibleDrop(s, n);
    s[n..]
  }

  lemma {:induction false} VisibleAppend(a: string, b: string)
    ensures Visible(a + b) == Visible(a) + Visible(b)
    decreases |a|
  {
    if a != [] {
      assert (a + b)[1..] == a[1..] + b;
      VisibleAppend(a[1..], b);
    } else {
      assert a + b == b;
    }
  }

  /** Number of whitespace characters at the end of `s`. */
  function TrailSpaces(s: string): (n: nat)
    ensures n <= |s| && (n == |s| || !IsSpace(s[|s| - n - 1]))
  {
    if s != [] && IsSpace(s[|s| - 1]) then 1 + TrailSpaces(s[..|s| - 1]) else 0
  }

  lemma {:induction false} TrailSpacesAreSpaces(s: string)
    ensures forall i :: |s| - TrailSpaces(s) <= i < |s| ==> IsSpace(s[i])
    decreases |s|
  {
    if s != [] && IsSpace(s[|s| - 1]) {
      var init := s[..|s| - 1];
      TrailSpacesAreSpaces(init);
      assert forall i :: |s| - TrailSpaces(s) <= i < |s| - 1 ==> s[i] == init[i];
    }
  }

  /** Dropping trailing whitespace keeps the visible characters. */
  lemma {:induction false} VisibleTrim(s: string, n: nat)
    requires n <= |s| && forall i :: n <= i < |s| ==> IsSpace(s[i])
    ensures Visible(s[..n]) == Visible(s)
    decreases |s| - n
  {
    if n < |s| {
      VisibleTrim(s, n + 1);
      assert s[..n + 1] == s[..n] + [s[n]];
      VisibleAppend(s[..n], [s[n]]);
      assert Visible([s[n]]) == [] by { assert [s[n]][1..] == []; }
    } else {
      assert s[..n] == s;
    }
  }

  /** `s.rstrip()` */
  function RStrip(s: string): (r: string)
    ensures |r| <= |s| && r == s[..|r|]
    ensures r == [] || !IsSpace(r[|r| - 1])
    ensures Visible(r) == Visible(s)
  {
    var n := |s| - TrailSpaces(s);
    TrailSpacesAreSpaces(s);
    VisibleTrim(s, n);
    s[..n]
  }

  /** Nothing blank at either end. */
  predicate Trimmed(s: string) {
    s == [] || (!IsSpace(s[0]) && !IsSpace(s[|s| - 1]))
  }

  /** `s.strip()`: the slice of `s` left once whitespace is dropped from
      both ends; only whitespace is dropped. */

  function Strip(s: string): (r: string)
    ensures Trimmed(r)
    ensures Visible(r) == Visible(s)
    ensures Trimmed(s) ==> r == s
    ensures var n := |RStrip(s)|; |r| <= n && r == s[n - |r|..n]
  {
    var e := |s| - TrailSpaces(s);
    var t := s[..e];
    var b := LeadSpaces(t);
    assert RStrip(s) == t && LStrip(t) == t[b..];
    assert t[b..] == s[b..e];
    assert b < e ==> s[b] == t[b];
    s[b..e]
  }

  /** `s.lstrip(ch)` for one character. */
  function LStripChar(s: string, ch: char): (r: string)
    ensures |r| <= |s| && r == s[|s| - |r|..]
    ensures r == [] || r[0] != ch
    ensures forall i :: 0 <= i < |s| - |r| ==> s[i] == ch
  {
    if s != [] && s[0] == ch then
      var r := LStripChar(s[1..], ch);
      assert forall i :: 1 <= i < |s| - |r| ==> s[i] == s[1..][i - 1];
      r
    else s
  }

  /** Only single spaces: every whitespace character is ' ' and no two are
      adjacent. */
  predicate SingleSpaced(s: string) {
    && (forall i :: 0 <= i < |s| && IsSpace(s[i]) ==> s[i] == ' ')
    && (forall i :: 0 <= i < |s| - 1 ==> !(IsSpace(s[i]) && IsSpace(s[i + 1])))
  }

  /** `re.sub(r"\s+", " ", s)`: each maximal run of whitespace becomes one
      space; the other characters are kept in order. */
  function CollapseSpace(s: string): (r: string)
    ensures SingleSpaced(r)
    ensures Visible(r) == Visible(s)
    ensures r == [] <==> s == []
    ensures r != [] ==> (IsSpace(r[0]) <==> IsSpace(s[0]))
    decreases |s|
  {
    if s == [] then []
    else if IsSpace(s[0]) then [' '] + CollapseSpace(LStrip(s))
    else [s[0]] + CollapseSpace(s[1..])
  }

  lemma {:induction false} CollapseSingleSpaced(s: string)
    requires SingleSpaced(s)
    ensures CollapseSpace(s) == s
    decreases |s|
  {
    if s != [] {
      var tail := s[1..];
      assert SingleSpaced(tail) by { SlicePreservesSingleSpaced(s, 1, |s|); }
      CollapseSingleSpaced(tail);
      if IsSpace(s[0]) {
        assert tail == [] || !IsSpace(tail[0]) by {
          if tail != [] { assert tail[0] == s[1]; }
        }
        assert LeadSpaces(tail) == 0;
        assert LeadSpaces(s) == 1;
        assert LStrip(s) == tail;
        assert s[0] == ' ';
        assert s == [' '] + tail;
      } else {
        assert s == [s[0]] + tail;
      }
    }
  }

  lemma SlicePreservesSingleSpaced(s: string, a: nat, b: nat)
    requires SingleSpaced(s) && a <= b <= |s|
    ensures SingleSpaced(s[a..b])
  {
    var t := s[a..b];
    forall i | 0 <= i < |t| - 1 ensures !(IsSpace(t[i]) && IsSpace(t[i + 1])) {
      assert t[i] == s[a + i] && t[i + 1] == s[a + i + 1];
    }
  }

  // ---------------------------------------------------------------- digits

  predicate IsDigit(c: char) { '0' <= c <= '9' }

  predicate AllDigits(s: string) {
    forall i :: 0 <= i < |s| ==> IsDigit(s[i])
  }

  /** `s.isdecimal()` and `s.isdigit()` on ASCII text: non-empty, all digits. */
  predicate IsDecimal(s: string) { s != [] && AllDigits(s) }

  function DigitValue(c: char): nat requires IsDigit(c) { c as int - '0' as int }

  function DigitChar(d: nat): (c: char)
    requires d < 10
    ensures IsDigit(c) && DigitValue(c) == d
  {
    ('0' as int + d) as char
  }

  /** `int(s)` for a string of decimal digits. */
  function DigitsValue(s: string): nat
    requires AllDigits(s)
  {
    if s == [] then 0 else DigitsValue(s[..|s| - 1]) * 10 + DigitValue(s[|s| - 1])
  }

  /** `str(n)` for a natural number. */
  function NatToDigits(n: nat): string
    decreases n
  {
    if n < 10 then [DigitChar(n)] else NatToDigits(n / 10) + [DigitChar(n % 10)]
  }

  /** Printing a number and reading it back gives the number. */
  lemma {:induction false} DigitsRoundTrip(n: nat)
    ensures IsDecimal(NatToDigits(n))
    ensures DigitsValue(NatToDigits(n)) == n
    decreases n
  {
    if n >= 10 {
      DigitsRoundTrip(n / 10);
      var s := NatToDigits(n);
      assert s[..|s| - 1] == NatToDigits(n / 10);
    }
  }

  // ------------------------------------------------------------ lower case

  function LowerChar(c: char): char {
    if 'A' <= c <= 'Z' then (c as int + 32) as char else c
  }

  /** `s.lower()` on ASCII letters. */
  function Lower(s: string): (r: string)
    ensures |r| == |s|
    ensures forall i :: 0 <= i < |s| ==> r[i] == LowerChar(s[i])
  {
    if s == [] then [] else [LowerChar(s[0])] + Lower(s[1..])
  }

  lemma LowerIdempotent(s: string)
    ensures Lower(Lower(s)) == Lower(s)
  {
    var l := Lower(s);
    assert forall i :: 0 <= i < |l| ==> LowerChar(l[i]) == l[i];
  }

  // ------------------------------------------------------- join and split

  /** `sep.join(parts)` */
  /** No string occurs twice. */
  predicate Distinct(s: seq<string>) {
    forall i, j :: 0 <= i < j < |s| ==> s[i] != s[j]
  }

  function Join(parts: seq<string>, sep: string): string {
    if |parts| == 0 then []
    else if |parts| == 1 then parts[0]
    else parts[0] + (sep + Join(parts[1..], sep))
  }

  /** Length of the run of non-whitespace characters at the start of `s`. */
  function WordLen(s: string): (n: nat)
    ensures n <= |s| && NoSpace(s[..n])
    ensures n == |s| || IsSpace(s[n])
  {
    if s == [] || IsSpace(s[0]) then 0
    else
      var k := WordLen(s[1..]);
      assert s[..k + 1] == [s[0]] + s[1..][..k];
      1 + k
  }

  /** `s.split()`: the maximal runs of non-whitespace characters. */
  function SplitWs(s: string): (r: seq<string>)
    ensures forall i :: 0 <= i < |r| ==> r[i] != [] && NoSpace(r[i])
    decreases |s|
  {
    var t := LStrip(s);
    if t == [] then []
    else
      var w := WordLen(t);
      [t[..w]] + SplitWs(t[w..])
  }

  lemma WordLenOfWord(a: string, rest: string)
    requires a != [] && NoSpace(a) && (rest == [] || IsSpace(rest[0]))
    ensures WordLen(a + rest) == |a|
    decreases |a|
  {
    if |a| > 1 {
      assert (a + rest)[1..] == a[1..] + rest;
      WordLenOfWord(a[1..], rest);
    } else {
      assert (a + rest)[1..] == rest;
    }
  }

  lemma SplitWsLeadingSpace(rest: string)
    ensures SplitWs(" " + rest) == SplitWs(rest)
  {
    var s := " " + rest;
    assert s[1..] == rest;
    assert LeadSpaces(s) == 1 + LeadSpaces(rest);
    assert s[1 + LeadSpaces(rest)..] == rest[LeadSpaces(rest)..];
    assert LStrip(s) == LStrip(rest);
  }

  lemma SplitWsWord(w: string, rest: string)
    requires w != [] && NoSpace(w) && (rest == [] || IsSpace(rest[0]))
    ensures SplitWs(w + rest) == [w] + SplitWs(rest)
  {
    var s := w + rest;
    assert LStrip(s) == s;
    WordLenOfWord(w, rest);
    assert s[..|w|] == w;
    assert s[|w|..] == rest;
  }

  lemma SplitWsJoinOne(words: seq<string>)
    requires |words| == 1 && words[0] != [] && NoSpace(words[0])
    ensures SplitWs(Join(words, " ")) == words
  {
    var w := words[0];
    SplitWsWord(w, []);
    assert w + [] == w;
    assert LStrip([]) == [];
    assert words == [w];
  }

  lemma SplitWsJoinStep(words: seq<string>)
    requires |words| > 1 && words[0] != [] && NoSpace(words[0])
    requires SplitWs(Join(words[1..], " ")) == words[1..]
    ensures SplitWs(Join(words, " ")) == words
  {
    var w := words[0];
    var rest := Join(words[1..], " ");
    assert Join(words, " ") == w + (" " + rest);
    SplitWsWord(w, " " + rest);
    SplitWsLeadingSpace(rest);
    assert [w] + words[1..] == words;
  }

  /** Joining words with single spaces and splitting again gives the words. */
  lemma {:induction false} SplitWsJoin(words: seq<string>)
    requires forall i :: 0 <= i < |words| ==> words[i] != [] && NoSpace(words[i])
    ensures SplitWs(Join(words, " ")) == words
    decreases |words|
  {
    if |words| == 0 {
      assert LStrip([]) == [];
    } else if |words| == 1 {
      SplitWsJoinOne(words);
    } else {
      var tail := words[1..];
      assert forall i :: 0 <= i < |tail| ==> tail[i] == words[i + 1];
      SplitWsJoin(tail);
      SplitWsJoinStep(words);
    }
  }

  lemma {:induction false} LeadSpacesAppend(y: string, z: string)
    ensures LeadSpaces(y + z) == if LeadSpaces(y) < |y| then LeadSpaces(y) else |y| + LeadSpaces(z)
    decreases |y|
  {
    if y == [] {
      assert y + z == z;
    } else if IsSpace(y[0]) {
      assert (y + z)[1..] == y[1..] + z;
      LeadSpacesAppend(y[1..], z);
    }
  }

  lemma {:induction false} AllSpacesLead(z: string)
    requires forall i :: 0 <= i < |z| ==> IsSpace(z[i])
    ensures LeadSpaces(z) == |z|
    decreases |z|
  {
    if z != [] {
      AllSpacesLead(z[1..]);
    }
  }

  /** Trailing whitespace adds no word. */
  lemma {:induction false} SplitWsAppendSpaces(y: string, sp: string)
    requires forall i :: 0 <= i < |sp| ==> IsSpace(sp[i])
    ensures SplitWs(y + sp) == SplitWs(y)
    decreases |y|, 1
  {
    var k := LeadSpaces(y);
    LeadSpacesAppend(y, sp);
    AllSpacesLead(sp);
    if k == |y| {
      assert LStrip(y) == [];
      assert LStrip(y + sp) == [];
    } else {
      var t := y[k..];
      assert LStrip(y) == t;
      assert LStrip(y + sp) == t + sp by { assert (y + sp)[k..] == t + sp; }
      SplitWsLStrip(y);
      SplitWsLStrip(y + sp);
      SplitWsAppendSpacesWord(t, sp);
    }
  }

  /** The same, for text that starts with a word. */
  lemma {:induction false} SplitWsAppendSpacesWord(t: string, sp: string)
    requires t != [] && !IsSpace(t[0])
    requires forall i :: 0 <= i < |sp| ==> IsSpace(sp[i])
    ensures SplitWs(t + sp) == SplitWs(t)
    decreases |t|, 0
  {
    var w := WordLen(t);
    assert w >= 1;
    var a, b := t[..w], t[w..];
    assert a != [] && NoSpace(a);
    SplitAt(t, w);
    assert b == [] || IsSpace(b[0]);
    SplitWsWord(a, b);
    assert SplitWs(t) == [a] + SplitWs(b);
    var rest := b + sp;
    assert rest == [] || IsSpace(rest[0]) by {
      if b != [] { assert rest[0] == b[0]; }
    }
    AppendAssoc(a, b, sp);
    SplitWsWord(a, rest);
    assert SplitWs(t + sp) == [a] + SplitWs(rest);
    SplitWsAppendSpaces(b, sp);
  }

  lemma SplitWsLStrip(x: string)
    ensures SplitWs(LStrip(x)) == SplitWs(x)
  {
    var t := LStrip(x);
    assert LeadSpaces(t) == 0;
    assert LStrip(t) == t;
  }

  lemma StripIsLR(s: string)
    ensures Strip(s) == LStrip(RStrip(s))
  {
    var e := |s| - TrailSpaces(s);
    var t := s[..e];
    assert t[LeadSpaces(t)..] == s[LeadSpaces(t)..e];
  }

  /** Stripping adds and removes no word. */
  lemma SplitWsStrip(x: string)
    ensures SplitWs(Strip(x)) == SplitWs(x)
  {
    StripIsLR(x);
    SplitWsLStrip(RStrip(x));
    SplitWsRStrip(x);
  }

  lemma SplitWsRStrip(x: string)
    ensures SplitWs(RStrip(x)) == SplitWs(x)
  {
    var n := |x| - TrailSpaces(x);
    TrailSpacesAreSpaces(x);
    var y, sp := x[..n], x[n..];
    assert forall i :: 0 <= i < |sp| ==> IsSpace(sp[i]) by {
      forall i | 0 <= i < |sp| ensures IsSpace(sp[i]) {
        assert sp[i] == x[n + i];
      }
    }
    assert y + sp == x;
    SplitWsAppendSpaces(y, sp);
  }

  /** A visible character in front of `x` starts a word of its own, or
      joins the word `x` starts with. */
  lemma SplitWsCons(c: char, x: string)
    requires !IsSpace(c)
    ensures x == [] || IsSpace(x[0]) ==> SplitWs([c] + x) == [[c]] + SplitWs(x)
    ensures x != [] && !IsSpace(x[0]) ==>
      SplitWs(x) != [] && SplitWs([c] + x) == [[c] + SplitWs(x)[0]] + SplitWs(x)[1..]
  {
    if x == [] || IsSpace(x[0]) {
      SplitWsWord([c], x);
    } else {
      assert LeadSpaces(x) == 0;
      assert LStrip(x) == x;
      var w := WordLen(x);
      var y := [c] + x;
      assert LeadSpaces(y) == 0;
      assert LStrip(y) == y;
      assert y[1..] == x;
      assert WordLen(y) == w + 1;
      assert y[..w + 1] == [c] + x[..w];
      assert y[w + 1..] == x[w..];
    }
  }

  /** Collapsing whitespace keeps the words. */
  lemma {:induction false} SplitWsCollapse(s: string)
    ensures SplitWs(CollapseSpace(s)) == SplitWs(s)
    decreases |s|
  {
    if s == [] {
    } else if IsSpace(s[0]) {
      var l := LStrip(s);
      assert |l| < |s|;
      assert CollapseSpace(s) == " " + CollapseSpace(l);
      SplitWsCollapse(l);
      SplitWsLeadingSpace(CollapseSpace(l));
      SplitWsLStrip(s);
    } else {
      var tail := s[1..];
      assert s == [s[0]] + tail;
      assert CollapseSpace(s) == [s[0]] + CollapseSpace(tail);
      SplitWsCollapse(tail);
      SplitWsConsBoth(s[0], tail, CollapseSpace(tail));
    }
  }

  /** Two texts with the same words and the same kind of first character
      keep the same words behind a visible character. */
  lemma SplitWsConsBoth(c: char, x: string, y: string)
    requires !IsSpace(c) && SplitWs(x) == SplitWs(y)
    requires x == [] <==> y == []
    requires x != [] ==> (IsSpace(x[0]) <==> IsSpace(y[0]))
    ensures SplitWs([c] + x) == SplitWs([c] + y)
  {
    SplitWsCons(c, x);
    SplitWsCons(c, y);
  }

  /** Single-spaced text with nothing blank at either end is its words
      joined with single spaces. */
  lemma {:induction false} JoinSplitTight(t: string)
    requires SingleSpaced(t) && Trimmed(t)
    ensures Join(SplitWs(t), " ") == t
    decreases |t|
  {
    if t == [] {
      assert LStrip(t) == [];
      assert SplitWs(t) == [];
    } else if WordLen(t) == |t| {
      JoinOneWord(t);
    } else {
      var w := WordLen(t);
      var u := t[w + 1..];
      TightTail(t);
      TightSplit(t, w, u);
      JoinSplitTight(u);
      JoinSplitStep(t, w, u, SplitWs(u));
    }
  }

  /** One step of `JoinSplitTight`: the first word, a space, then the rest
      rejoined. */
  lemma JoinSplitStep(t: string, w: nat, u: string, ws: seq<string>)
    requires w <= |t| && t[w..] == " " + u
    requires ws != [] && Join(ws, " ") == u
    ensures Join([t[..w]] + ws, " ") == t
  {
    JoinCons(t[..w], ws, " ");
    SplitAt(t, w);
  }

  /** A text that is one word splits into just that word. */
  lemma JoinOneWord(t: string)
    requires t != [] && WordLen(t) == |t|
    ensures Join(SplitWs(t), " ") == t
  {
    assert t[..|t|] == t;
    SplitWsWord(t, []);
    assert t + [] == t;
    assert LStrip([]) == [];
    assert SplitWs(t) == [t];
  }

  lemma AppendAssoc(a: string, b: string, c: string)
    ensures (a + b) + c == a + (b + c)
  {
  }

  lemma SplitAt(t: string, w: nat)
    requires w <= |t|
    ensures t == t[..w] + t[w..]
  {
  }

  /** The text after the first word and its single space, when there is
      more than one word, is again single-spaced with nothing blank at
      either end. */
  lemma TightTail(t: string)
    requires SingleSpaced(t) && t != [] && !IsSpace(t[0]) && !IsSpace(t[|t| - 1]) && WordLen(t) < |t|
    ensures var u := t[WordLen(t) + 1..];
      SingleSpaced(u) && u != [] && !IsSpace(u[0]) && !IsSpace(u[|u| - 1])
    ensures t[WordLen(t)..] == " " + t[WordLen(t) + 1..]
  {
    var w := WordLen(t);
    assert t[w] == ' ';
    var u := t[w + 1..];
    SlicePreservesSingleSpaced(t, w + 1, |t|);
    assert u[0] == t[w + 1] && u[|u| - 1] == t[|t| - 1];
  }

  lemma TightSplit(t: string, w: nat, u: string)
    requires t != [] && !IsSpace(t[0]) && w == WordLen(t) && w < |t| && t[w..] == " " + u
    requires u != [] && !IsSpace(u[0])
    ensures SplitWs(u) != [] && SplitWs(t) == [t[..w]] + SplitWs(u)
  {
    assert LeadSpaces(t) == 0;
    assert LStrip(t) == t;
    SplitWsLeadingSpace(u);
    assert LeadSpaces(u) == 0;
    assert LStrip(u) == u;
  }

  /** `s.replace(pat, rep)`: left-to-right, non-overlapping. */
  function ReplaceAll(s: string, pat: string, rep: string): string
    requires pat != []
    decreases |s|
  {
    if |s| < |pat| then s
    else if s[..|pat|] == pat then rep + ReplaceAll(s[|pat|..], pat, rep)
    else [s[0]] + ReplaceAll(s[1..], pat, rep)
  }

  predicate OccursAt(s: string, pat: string, i: nat) {
    i + |pat| <= |s| && s[i..i + |pat|] == pat
  }

  lemma {:induction false} ReplaceAbsent(s: string, pat: string, rep: string)
    requires pat != [] && forall i: nat :: !OccursAt(s, pat, i)
    ensures ReplaceAll(s, pat, rep) == s
    decreases |s|
  {
    if |s| >= |pat| {
      assert !OccursAt(s, pat, 0);
      assert s[..|pat|] == s[0..|pat|];
      forall i: nat ensures !OccursAt(s[1..], pat, i) {
        if i + |pat| <= |s[1..]| {
          assert s[1..][i..i + |pat|] == s[i + 1..i + 1 + |pat|];
          assert !OccursAt(s, pat, i + 1);
        }
      }
      ReplaceAbsent(s[1..], pat, rep);
    }
  }

  predicate EndsWith(s: string, suffix: string) {
    |suffix| <= |s| && s[|s| - |suffix|..] == suffix
  }

  /** `s.rstrip(ch)` for one character. */
  function RStripChar(s: string, ch: char): (r: string)
    ensures |r| <= |s| && r == s[..|r|]
    ensures r == [] || r[|r| - 1] != ch
    ensures forall i :: |r| <= i < |s| ==> s[i] == ch
  {
    if s != [] && s[|s| - 1] == ch then RStripChar(s[..|s| - 1], ch) else s
  }

  // ------------------------------------- re.split(r"\s*<c>\s*", s)

  /** Length of the whitespace run starting at `i`. */
  function SpaceRun(s: string, i: nat): (n: nat)
    requires i <= |s|
    ensures i + n <= |s|
    ensures forall j :: i <= j < i + n ==> IsSpace(s[j])
    ensures i + n == |s| || !IsSpace(s[i + n])
    decreases |s| - i
  {
    if i < |s| && IsSpace(s[i]) then 1 + SpaceRun(s, i + 1) else 0
  }

  /** The regex `\s*<c>\s*` tried at `i` after the leading `\s*` has taken
      `k` characters, backtracking to fewer: the end of the match, if any. */
  function MatchTry(c: char, s: string, i: nat, k: nat): (e: Option<nat>)
    requires i + k <= |s|
    ensures e.Some? ==> i < e.value <= |s|
    decreases k
  {
    if i + k < |s| && s[i + k] == c then Some(i + k + 1 + SpaceRun(s, i + k + 1))
    else if k == 0 then None
    else MatchTry(c, s, i, k - 1)
  }

  /** Where a match of `\s*<c>\s*` starting exactly at `i` ends, if one does. */
  function MatchAt(c: char, s: string, i: nat): (e: Option<nat>)
    requires i <= |s|
    ensures e.Some? ==> i < e.value <= |s|
  {
    MatchTry(c, s, i, SpaceRun(s, i))
  }

  lemma MatchTryAtChar(c: char, s: string, i: nat, k: nat)
    requires i + k <= |s| && i < |s| && s[i] == c
    ensures MatchTry(c, s, i, k).Some?
    decreases k
  {
    if !(i + k < |s| && s[i + k] == c) && k > 0 {
      MatchTryAtChar(c, s, i, k - 1);
    }
  }

  /** Pieces of `s[start..]`, the search for the next match resuming at `i`. */
  function SplitFrom(c: char, s: string, start: nat, i: nat): (r: seq<string>)
    requires start <= i <= |s|
    ensures |r| >= 1
    decreases |s| - i
  {
    if i == |s| then [s[start..]]
    else match MatchAt(c, s, i)
      case Some(e) => [s[start..i]] + SplitFrom(c, s, e, e)
      case None => SplitFrom(c, s, start, i + 1)
  }

  /** `re.split(r"\s*" + re.escape(c) + r"\s*", s)` */
  function SplitAround(c: char, s: string): (r: seq<string>)
    ensures |r| >= 1
  {
    SplitFrom(c, s, 0, 0)
  }

  lemma {:induction false} SplitFromNoSep(c: char, s: string, start: nat, i: nat)
    requires start <= i <= |s|
    requires forall j :: start <= j < i ==> s[j] != c
    ensures forall p :: p in SplitFrom(c, s, start, i) ==> c !in p
    decreases |s| - i
  {
    if i == |s| {
      var p := s[start..];
      forall j | 0 <= j < |p| ensures p[j] != c { assert p[j] == s[start + j]; }
    } else {
      match MatchAt(c, s, i)
      case Some(e) =>
        var p := s[start..i];
        forall j | 0 <= j < |p| ensures p[j] != c { assert p[j] == s[start + j]; }
        SplitFromNoSep(c, s, e, e);
      case None =>
        if s[i] == c { MatchTryAtChar(c, s, i, SpaceRun(s, i)); }
        SplitFromNoSep(c, s, start, i + 1);
    }
  }

  /** No piece of the split contains the separator. */
  lemma SplitAroundNoSep(c: char, s: string)
    ensures forall p :: p in SplitAround(c, s) ==> c !in p
  {
    SplitFromNoSep(c, s, 0, 0);
  }

  lemma {:induction false} SplitFromAbsent(c: char, s: string, start: nat, i: nat)
    requires start <= i <= |s| && c !in s
    ensures SplitFrom(c, s, start, i) == [s[start..]]
    decreases |s| - i
  {
    if i < |s| {
      MatchTryAbsent(c, s, i, SpaceRun(s, i));
      SplitFromAbsent(c, s, start, i + 1);
    }
  }

  lemma MatchTryAbsent(c: char, s: string, i: nat, k: nat)
    requires i + k <= |s| && c !in s
    ensures MatchTry(c, s, i, k).None?
    decreases k
  {
    if k > 0 { MatchTryAbsent(c, s, i, k - 1); }
  }

  /** Text without the separator is one piece. */
  lemma SplitAroundAbsent(c: char, s: string)
    requires c !in s
    ensures SplitAround(c, s) == [s]
  {
    SplitFromAbsent(c, s, 0, 0);
  }

  /** No whitespace stands next to an occurrence of `c`, which is not
      whitespace itself. */
  predicate Tight(c: char, s: string) {
    !IsSpace(c) && forall j :: 0 <= j < |s| ==> TightAt(c, s, j)
  }

  predicate TightAt(c: char, s: string, j: nat)
    requires j < |s|
  {
    s[j] == c ==> (j == 0 || !IsSpace(s[j - 1])) && (j + 1 == |s| || !IsSpace(s[j + 1]))
  }

  /** In tight text `\s*<c>\s*` matches exactly at an occurrence of `c`,
      taking just that character. */
  lemma {:induction false} MatchTryTight(c: char, s: string, i: nat, k: nat)
    requires i < |s| && i + k <= |s| && k <= SpaceRun(s, i) && Tight(c, s)
    ensures MatchTry(c, s, i, k) == if s[i] == c then Some(i + 1) else None
    decreases k
  {
    if k == 0 {
      if s[i] == c {
        assert TightAt(c, s, i);
      }
    } else {
      assert IsSpace(s[i]) && IsSpace(s[i + k - 1]);
      if i + k < |s| {
        assert TightAt(c, s, i + k);
      }
      MatchTryTight(c, s, i, k - 1);
    }
  }

  lemma JoinCons(p: string, rest: seq<string>, sep: string)
    requires rest != []
    ensures Join([p] + rest, sep) == p + sep + Join(rest, sep)
  {
    assert ([p] + rest)[1..] == rest;
  }

  lemma {:induction false} SplitFromJoin(c: char, s: string, start: nat, i: nat)
    requires start <= i <= |s| && Tight(c, s)
    requires forall j :: start <= j < i ==> s[j] != c
    ensures Join(SplitFrom(c, s, start, i), [c]) == s[start..]
    decreases |s| - i, 1
  {
    if i < |s| {
      MatchTryTight(c, s, i, SpaceRun(s, i));
      assert MatchAt(c, s, i) == if s[i] == c then Some(i + 1) else None;
      if s[i] == c {
        SplitFromJoinSep(c, s, start, i);
      } else {
        assert SplitFrom(c, s, start, i) == SplitFrom(c, s, start, i + 1);
        SplitFromJoin(c, s, start, i + 1);
      }
    }
  }

  /** The separator case of `SplitFromJoin`: the piece before `i` is cut
      off and the split starts over just after the separator. */
  lemma {:induction false} SplitFromJoinSep(c: char, s: string, start: nat, i: nat)
    requires start <= i < |s| && Tight(c, s) && s[i] == c
    requires MatchAt(c, s, i) == Some(i + 1)
    ensures Join(SplitFrom(c, s, start, i), [c]) == s[start..]
    decreases |s| - i, 0
  {
    var rest := SplitFrom(c, s, i + 1, i + 1);
    assert SplitFrom(c, s, start, i) == [s[start..i]] + rest;
    SplitFromJoin(c, s, i + 1, i + 1);
    JoinCons(s[start..i], rest, [c]);
    assert s[start..] == s[start..i] + [c] + s[i + 1..];
  }

  /** Rejoining the pieces with `c` gives back text with no whitespace next
      to a separator; elsewhere the split drops exactly that whitespace. */
  lemma SplitAroundJoin(c: char, s: string)
    requires Tight(c, s)
    ensures Join(SplitAround(c, s), [c]) == s
  {
    SplitFromJoin(c, s, 0, 0);
  }

  // ------------------------------------------------------ integer sets

  predicate IsLeastInt(m: int, s: set<int>) {
    m in s && forall y :: y in s && y != m ==> m < y
  }

  lemma PickInt(xs: set<int>) returns (x: int)
    requires xs != {}
    ensures x in xs
  {
    assert exists n :: n in xs by {
      if forall n :: n !in xs {
        assert false;
      }
    }
    x :| x in xs;
  }

  lemma {:induction false} LeastIntExists(xs: set<int>)
    requires xs != {}
    ensures exists m :: IsLeastInt(m, xs)
    decreases xs
  {
    var x := PickInt(xs);
    var rest := xs - {x};
    if rest != {} {
      LeastIntExists(rest);
      var m :| IsLeastInt(m, rest);
      var least := if x < m then x else m;
      forall y | y in xs && y != least ensures least < y {
        if y != x { assert y in rest; }
      }
      assert IsLeastInt(least, xs);
    } else {
      forall y | y in xs ensures y == x {
        assert y !in rest;
      }
      assert IsLeastInt(x, xs);
    }
  }

  /** `sorted(s)` for a set of integers. */
  function SortedInts(s: set<int>): (r: seq<int>)
    ensures forall i, j :: 0 <= i < j < |r| ==> r[i] < r[j]
    ensures forall x :: x in r <==> x in s
    ensures |r| == |s|
    decreases s
  {
    if s == {} then []
    else
      LeastIntExists(s);
      var m :| IsLeastInt(m, s);
      var rest := SortedInts(s - {m});
      assert |s - {m}| == |s| - 1;
      [m] + rest
  }

  // ------------------------------------------------- code-point ordering

  /** Python's `a < b` on strings: lexicographic by code point. */
  predicate StrLt(a: string, b: string) {
    if a == [] then b != []
    else if b == [] then false
    else if a[0] == b[0] then StrLt(a[1..], b[1..])
    else a[0] < b[0]
  }

  lemma StrLtIrreflexive(a: string)
    ensures !StrLt(a, a)
  {
    if a != [] { StrLtIrreflexive(a[1..]); }
  }

  lemma StrLtAsymmetric(a: string, b: string)
    ensures StrLt(a, b) ==> !StrLt(b, a)
  {
    if a != [] && b != [] && a[0] == b[0] { StrLtAsymmetric(a[1..], b[1..]); }
  }

  lemma StrLtTransitive(a: string, b: string, c: string)
    ensures StrLt(a, b) && StrLt(b, c) ==> StrLt(a, c)
  {
    if a != [] && b != [] && c != [] && a[0] == b[0] && b[0] == c[0] {
      StrLtTransitive(a[1..], b[1..], c[1..]);
    }
  }

  lemma StrLtTotal(a: string, b: string)
    ensures a == b || StrLt(a, b) || StrLt(b, a)
  {
    if a != [] && b != [] && a[0] == b[0] {
      StrLtTotal(a[1..], b[1..]);
      if a[1..] == b[1..] { assert a == [a[0]] + a[1..] && b == [b[0]] + b[1..]; }
    }
  }

  predicate IsLeastStr(m: string, s: set<string>) {
    m in s && forall y :: y in s && y != m ==> StrLt(m, y)
  }

  lemma {:induction false} LeastStrExists(s: set<string>)
    requires s != {}
    ensures exists m :: IsLeastStr(m, s)
    decreases s
  {
    var x :| x in s;
    if s != {x} {
      LeastStrExists(s - {x});
      var m :| IsLeastStr(m, s - {x});
      StrLtTotal(x, m);
      if StrLt(x, m) {
        forall y | y in s && y != x ensures StrLt(x, y) {
          if y != m { StrLtTransitive(x, m, y); }
        }
        assert IsLeastStr(x, s);
      } else {
        assert IsLeastStr(m, s);
      }
    } else {
      assert IsLeastStr(x, s);
    }
  }

  predicate StrictlySorted(r: seq<string>) {
    forall i, j :: 0 <= i < j < |r| ==> StrLt(r[i], r[j])
  }

  /** `sorted(s)` for a set of strings. */
  function SortedStrings(s: set<string>): (r: seq<string>)
    ensures StrictlySorted(r)
    ensures forall x :: x in r <==> x in s
    ensures |r| == |s|
    decreases s
  {
    if s == {} then []
    else
      LeastStrExists(s);
      assert forall a, b :: IsLeastStr(a, s) && IsLeastStr(b, s) ==> a == b by {
        forall a, b | IsLeastStr(a, s) && IsLeastStr(b, s) ensures a == b {
          StrLtAsymmetric(a, b);
        }
      }
      var m :| IsLeastStr(m, s);
      var rest := SortedStrings(s - {m});
      assert |s - {m}| == |s| - 1;
      [m] + rest
  }
}
