/**
 * The helpers of core/util.py: chunking a list, order-preserving
 * de-duplication, separator splitting, and the tolerant string and number
 * conversions applied to scraped fields; the environment is a map.
 */
module Util {

  import opened Values
  import opened Text

  /** `set(xs)` */
  function Elems(xs: seq<string>): (s: set<string>)
    ensures forall x :: x in s <==> x in xs
  {
    set x | x in xs
  }

  // ------------------------------------------------------------- iter_chunk

  /** The concatenation of a sequence of chunks. */
  function Flatten<T>(chunks: seq<seq<T>>): seq<T> {
    if chunks == [] then [] else Flatten(chunks[..|chunks| - 1]) + chunks[|chunks| - 1]
  }

  /** `iter_chunk(size, args)`: consecutive chunks of `size` elements, the last
      one possibly shorter; when `size <= 0` the running chunk never reaches
      `size`, so the whole input comes out as one chunk. */
  method IterChunk<T>(size: int, args: seq<T>) returns (chunks: seq<seq<T>>)
    ensures Flatten(chunks) == args
    ensures forall i :: 0 <= i < |chunks| ==> chunks[i] != []
    ensures size >= 1 ==> forall i :: 0 <= i < |chunks| ==> |chunks[i]| <= size
    ensures size >= 1 ==> forall i :: 0 <= i < |chunks| - 1 ==> |chunks[i]| == size
    ensures size <= 0 ==> chunks == if args == [] then [] else [args]
    ensures chunks == [] <==> args == []
  {
    chunks := [];
    var arr: seq<T> := [];
    var i := 0;
    while i < |args|
      invariant 0 <= i <= |args|
      invariant Flatten(chunks) + arr == args[..i]
      invariant forall j :: 0 <= j < |chunks| ==> chunks[j] != []
      invariant size >= 1 ==> |arr| < size && forall j :: 0 <= j < |chunks| ==> |chunks[j]| == size
      invariant size <= 0 ==> chunks == [] && arr == args[..i]
      invariant i > 0 ==> chunks != [] || arr != []
    {
      assert args[..i + 1] == args[..i] + [args[i]];
      arr := arr + [args[i]];
      if |arr| == size {
        FlattenPush(chunks, arr);
        chunks := chunks + [arr];
        arr := [];
      }
      i := i + 1;
    }
    assert args[..|args|] == args;
    if arr != [] {
      FlattenPush(chunks, arr);
      chunks := chunks + [arr];
    }
  }

  lemma FlattenPush<T>(chunks: seq<seq<T>>, last: seq<T>)
    ensures Flatten(chunks + [last]) == Flatten(chunks) + last
  {
    assert (chunks + [last])[..|chunks|] == chunks;
  }

  // ------------------------------------------------------------------- uniq

  /** Position of the first occurrence of `x` in `s`. */
  function FirstPos<T(==)>(s: seq<T>, x: T): (k: nat)
    requires x in s
    ensures k < |s| && s[k] == x && forall j :: 0 <= j < k ==> s[j] != x
  {
    if s[0] == x then 0 else 1 + FirstPos(s[1..], x)
  }

  /** What `uniq(*args)` returns, read off the prefix the loop has seen. */
  function UniqOf(args: seq<Option<string>>): seq<string> {
    if args == [] then []
    else
      var prev := UniqOf(args[..|args| - 1]);
      var a := args[|args| - 1];
      if a.Some? && a.value != "" && a.value !in prev then prev + [a.value] else prev
  }

  /** `uniq(*args)`: keep each argument that is neither `None` nor `''`, and
      is not already kept. */
  method Uniq(args: seq<Option<string>>) returns (arr: seq<string>)
    ensures arr == UniqOf(args)
  {
    arr := [];
    for i := 0 to |args|
      invariant arr == UniqOf(args[..i])
    {
      assert args[..i + 1][..i] == args[..i];
      var a := args[i];
      if a.Some? && a.value != "" && a.value !in arr {
        arr := arr + [a.value];
      }
    }
    assert args[..|args|] == args;
  }

  /** The result of `uniq` holds exactly the non-empty strings among the
      arguments. */
  lemma {:induction false} UniqOfMembers(args: seq<Option<string>>)
    ensures forall x :: x in UniqOf(args) <==> (Some(x) in args && x != "")
    decreases |args|
  {
    if args != [] {
      var init := args[..|args| - 1];
      UniqOfMembers(init);
      assert args == init + [args[|args| - 1]];
    }
  }

  /** Each string is kept once. */
  lemma {:induction false} UniqOfDistinct(args: seq<Option<string>>)
    ensures forall i, j :: 0 <= i < j < |UniqOf(args)| ==> UniqOf(args)[i] != UniqOf(args)[j]
    decreases |args|
  {
    if args != [] {
      UniqOfDistinct(args[..|args| - 1]);
    }
  }

  /** Appending an argument does not move the first occurrence of a value
      already present. */
  lemma FirstPosAppend<T>(init: seq<T>, a: T, x: T)
    requires x in init
    ensures FirstPos(init + [a], x) == FirstPos(init, x)
  {
    var k := FirstPos(init, x);
    var args := init + [a];
    assert args[k] == x;
    assert forall j :: 0 <= j < k ==> args[j] == init[j];
  }

  /** The kept strings are in the order of their first occurrence. */
  lemma {:induction false} UniqOfOrder(args: seq<Option<string>>)
    ensures forall x :: x in UniqOf(args) ==> Some(x) in args
    ensures forall i, j :: 0 <= i < j < |UniqOf(args)| ==>
      FirstPos(args, Some(UniqOf(args)[i])) < FirstPos(args, Some(UniqOf(args)[j]))
    decreases |args|
  {
    if args != [] {
      var init := args[..|args| - 1];
      var a := args[|args| - 1];
      assert args == init + [a];
      var prev := UniqOf(init);
      var r := UniqOf(args);
      UniqOfOrder(init);
      assert |prev| <= |r| && forall i :: 0 <= i < |prev| ==> r[i] == prev[i];
      forall x | x in r ensures Some(x) in args {
        if x !in prev {
          assert x == a.value;
        }
      }
      forall i, j | 0 <= i < j < |r| ensures FirstPos(args, Some(r[i])) < FirstPos(args, Some(r[j])) {
        FirstPosAppend(init, a, Some(prev[i]));
        if j < |prev| {
          FirstPosAppend(init, a, Some(prev[j]));
        } else {
          assert r[j] == a.value && a.value !in prev && a.value != "";
          assert Some(a.value) !in init by {
            UniqOfMembers(init);
          }
          assert FirstPos(args, Some(a.value)) == |args| - 1;
        }
      }
    }
  }

  // --------------------------------------------------------------- tp_split

  function Somes(xs: seq<string>): (r: seq<Option<string>>)
    ensures |r| == |xs| && forall i :: 0 <= i < |xs| ==> r[i] == Some(xs[i])
  {
    if xs == [] then [] else [Some(xs[0])] + Somes(xs[1..])
  }

  /** `tp_split(sep, s)` for a one-character separator. */
  function TpSplit(sep: char, s: Option<string>): seq<string> {
    if s.None? then [] else UniqOf(Somes(SplitAround(sep, s.value)))
  }

  /** `tp_split` gives no pieces for `None`; otherwise its pieces are exactly
      the distinct non-empty pieces of the separator split, none of which
      contains the separator. */
  lemma TpSplitSpec(sep: char, s: Option<string>)
    ensures s.None? ==> TpSplit(sep, s) == []
    ensures s.Some? ==> forall x :: x in TpSplit(sep, s) <==> (x in SplitAround(sep, s.value) && x != "")
    ensures forall i, j :: 0 <= i < j < |TpSplit(sep, s)| ==> TpSplit(sep, s)[i] != TpSplit(sep, s)[j]
    ensures forall x :: x in TpSplit(sep, s) ==> x != "" && sep !in x
  {
    if s.Some? {
      var pieces := SplitAround(sep, s.value);
      UniqOfMembers(Somes(pieces));
      UniqOfDistinct(Somes(pieces));
      SplitAroundNoSep(sep, s.value);
      forall x ensures Some(x) in Somes(pieces) <==> x in pieces {
        if x in pieces {
          var k :| 0 <= k < |pieces| && pieces[k] == x;
          assert Somes(pieces)[k] == Some(x);
        }
      }
    }
  }

  /** A text without the separator splits into itself alone (or into nothing
      when it is empty). */
  lemma TpSplitNoSeparator(sep: char, s: string)
    requires sep !in s
    ensures TpSplit(sep, Some(s)) == if s == "" then [] else [s]
  {
    SplitAroundAbsent(sep, s);
    assert Somes([s]) == [Some(s)];
    assert [Some(s)][..0] == [];
    assert UniqOf([]) == [];
    assert UniqOf([Some(s)]) == if s == "" then [] else [s];
  }

  // --------------------------------------------------------------- safe_str

  /** The shape of a cleaned string: non-empty, not the `N/A` marker, single
      spaced, nothing blank at either end. */
  predicate Clean(t: string) {
    && t != "" && t != "N/A" && SingleSpaced(t)
    && !IsSpace(t[0]) && !IsSpace(t[|t| - 1])
  }

  lemma VisibleEmptyStart(t: string)
    ensures Visible(t) == [] && (t == [] || !IsSpace(t[0])) ==> t == []
  {
  }

  /** `re.sub(r"\s+", " ", s).strip()`: single spaced, nothing blank at
      either end, the same visible characters; a clean string is kept. */
  function Cleaned(s: string): (t: string)
    ensures SingleSpaced(t) && Visible(t) == Visible(s)
    ensures Trimmed(t)
    ensures Visible(s) == [] ==> t == []
    ensures Clean(s) ==> t == s
    ensures t == Join(SplitWs(s), " ")
  {
    var c := CollapseSpace(s);
    var t := Strip(c);
    VisibleChain(s, c, t);
    CleanedWords(s, t);
    CleanedKeeps(s, t);
    t
  }

  lemma VisibleChain(s: string, c: string, t: string)
    requires Visible(c) == Visible(s) && Visible(t) == Visible(c)
    requires t == [] || !IsSpace(t[0])
    ensures Visible(t) == Visible(s)
    ensures Visible(s) == [] ==> t == []
  {
    VisibleEmptyStart(t);
  }

  /** Cleaning leaves a clean string as it is. */
  lemma CleanedKeeps(s: string, t: string)
    requires t == Strip(CollapseSpace(s))
    ensures Clean(s) ==> t == s
  {
    if Clean(s) {
      CollapseSingleSpaced(s);
    }
  }

  /** The cleaned text is the words of `s` joined by single spaces. */
  lemma CleanedWords(s: string, t: string)
    requires t == Strip(CollapseSpace(s))
    ensures SingleSpaced(t)
    ensures Trimmed(t)
    ensures t == Join(SplitWs(s), " ")
  {
    var c := CollapseSpace(s);
    assert t == [] || (!IsSpace(t[0]) && !IsSpace(t[|t| - 1]));
    CleanedTight(c);
    assert SingleSpaced(t);
    SplitWsCollapse(s);
    assert SplitWs(c) == SplitWs(s);
    SplitWsStrip(c);
    assert SplitWs(t) == SplitWs(s);
    SameWordsJoin(s, t);
    assert t == Join(SplitWs(s), " ");
  }

  lemma CleanedTight(c: string)
    requires SingleSpaced(c)
    ensures SingleSpaced(Strip(c))
  {
    var t := Strip(c);
    SlicePreservesSingleSpaced(c, |RStrip(c)| - |t|, |RStrip(c)|);
  }

  lemma SameWordsJoin(s: string, t: string)
    requires SingleSpaced(t) && Trimmed(t)
    requires SplitWs(t) == SplitWs(s)
    ensures t == Join(SplitWs(s), " ")
  {
    JoinSplitTight(t);
  }

  /** `safe_str(s, default)` */
  function SafeStr(s: Value, default: Option<string>): (r: Option<string>)
    ensures !s.VStr? ==> r == default
    ensures s.VStr? ==> r == default || (r.Some? && Clean(r.value) && Visible(r.value) == Visible(s.s))
    ensures s.VStr? && Clean(s.s) ==> r == Some(s.s)
    ensures s.VStr? && Visible(s.s) == [] ==> r == default
    ensures s.VStr? ==> r == (var w := Join(SplitWs(s.s), " ");
                              if w == "" || w == "N/A" then default else Some(w))
  {
    if !s.VStr? then default
    else
      var t := Cleaned(s.s);
      if t == "" || t == "N/A" then default
      else Some(t)
  }

  // --------------------------------------------------------------- safe_num

  /** Length of the run of ASCII digits starting at `i`. */
  function DigitRun(s: string, i: nat): (n: nat)
    requires i <= |s|
    ensures i + n <= |s| && AllDigits(s[i..i + n])
    ensures i + n == |s| || !IsDigit(s[i + n])
    decreases |s| - i
  {
    if i < |s| && IsDigit(s[i]) then
      var k := DigitRun(s, i + 1);
      assert s[i..i + 1 + k] == [s[i]] + s[i + 1..i + 1 + k];
      1 + k
    else 0
  }

  function Pow10(n: nat): (p: nat)
    ensures p >= 1
  {
    if n == 0 then 1 else 10 * Pow10(n - 1)
  }

  /** Does `t` match `^\d+\.\d+$`? */
  predicate IsDecimalFraction(t: string) {
    var a := DigitRun(t, 0);
    a >= 1 && a < |t| && t[a] == '.' && a + 1 + DigitRun(t, a + 1) == |t| && DigitRun(t, a + 1) >= 1
  }

  /** Does `t` match `^(\d+)\s+min$`? */
  predicate IsMinutes(t: string) {
    var a := DigitRun(t, 0);
    a >= 1 && SpaceRun(t, a) >= 1 && t[a + SpaceRun(t, a)..] == "min"
  }

  /** `safe_num(s, default)`: numbers pass through, strings that read as a
      whole number, a decimal fraction or a number of minutes become that
      number, anything else gives `default`.  Floats are exact reals here. */
  function SafeNum(s: Value, default: Value): (r: Value)
    ensures s.VInt? || s.VFloat? || s.VBool? ==> r == s
    ensures !(s.VInt? || s.VFloat? || s.VBool? || s.VStr?) ==> r == default
    ensures s.VStr? ==> r == default || (r.VInt? && r.i >= 0) || (r.VFloat? && r.r >= 0.0)
    ensures s.VStr? && Visible(s.s) == [] ==> r == default
  {
    if s.VInt? || s.VFloat? || s.VBool? then s
    else if !s.VStr? then default
    else
      var t := Strip(s.s);
      VisibleEmptyStart(t);
      match ReadNumber(t)
      case Some(v) => v
      case None => default
  }

  /** The three patterns `safe_num` tries on a stripped, non-empty string. */
  function ReadNumber(t: string): (r: Option<Value>)
    ensures t == "" ==> r == None
    ensures r.Some? ==> (r.value.VInt? && r.value.i >= 0) || (r.value.VFloat? && r.value.r >= 0.0)
  {
    if |t| == 0 then None
    else if IsDecimal(t) then Some(VInt(DigitsValue(t)))
    else if IsDecimalFraction(t) then
      var a := DigitRun(t, 0);
      var frac := t[a + 1..];
      assert t[..a] == t[0..0 + a];
      assert frac == t[a + 1..a + 1 + DigitRun(t, a + 1)];
      Some(VFloat(DigitsValue(t[..a]) as real + DigitsValue(frac) as real / Pow10(|frac|) as real))
    else if IsMinutes(t) then
      assert t[..DigitRun(t, 0)] == t[0..0 + DigitRun(t, 0)];
      Some(VInt(DigitsValue(t[..DigitRun(t, 0)])))
    else None
  }

  lemma DigitRunAll(s: string, i: nat)
    requires i <= |s| && AllDigits(s[i..])
    ensures DigitRun(s, i) == |s| - i
    decreases |s| - i
  {
    if i < |s| {
      assert s[i] == s[i..][0];
      assert s[i + 1..] == s[i..][1..];
      DigitRunAll(s, i + 1);
    }
  }

  lemma DigitRunPrefix(d: string, rest: string)
    requires AllDigits(d) && rest != [] && !IsDigit(rest[0])
    ensures DigitRun(d + rest, 0) == |d|
  {
    var t := d + rest;
    var i := |d|;
    assert t[i] == rest[0];
    assert DigitRun(t, i) == 0;
    while i > 0
      invariant 0 <= i <= |d|
      invariant DigitRun(t, i) == |d| - i
    {
      assert t[i - 1] == d[i - 1];
      i := i - 1;
    }
  }

  lemma SafeNumOfStripped(t: string, default: Value, v: Value)
    requires Strip(t) == t && ReadNumber(t) == Some(v)
    ensures SafeNum(VStr(t), default) == v
  {
  }

  /** A decimal string reads as the number it spells. */
  lemma SafeNumDecimal(t: string, default: Value)
    requires IsDecimal(t)
    ensures SafeNum(VStr(t), default) == VInt(DigitsValue(t))
  {
    assert !IsSpace(t[0]) && !IsSpace(t[|t| - 1]);
    assert Strip(t) == t;
    assert ReadNumber(t) == Some(VInt(DigitsValue(t)));
    SafeNumOfStripped(t, default, VInt(DigitsValue(t)));
  }

  /** A number written in decimal reads back as that number. */
  lemma SafeNumDigits(n: nat, default: Value)
    ensures SafeNum(VStr(NatToDigits(n)), default) == VInt(n)
  {
    DigitsRoundTrip(n);
    SafeNumDecimal(NatToDigits(n), default);
  }

  lemma MinutesShape(d: string)
    requires IsDecimal(d)
    ensures Strip(d + " min") == d + " min"
    ensures DigitRun(d + " min", 0) == |d|
    ensures IsMinutes(d + " min") && !IsDecimal(d + " min") && !IsDecimalFraction(d + " min")
    ensures (d + " min")[..|d|] == d
  {
    var t := d + " min";
    assert t[..|d|] == d && t[|d|..] == " min";
    DigitRunPrefix(d, " min");
    MinutesEdges(t, |d|);
    MinutesKind(t, |d|);
  }

  /** `<digits> min` has no blank at either end. */
  lemma MinutesEdges(t: string, k: nat)
    requires 1 <= k && k + 4 == |t| && IsDecimal(t[..k]) && t[k..] == " min"
    ensures Strip(t) == t
  {
    assert t[0] == t[..k][0] && IsDigit(t[0]);
    assert t[|t| - 1] == t[k..][3] == 'n';
    assert !IsSpace(t[0]) && !IsSpace(t[|t| - 1]);
  }

  /** `<digits> min` is a number of minutes, neither a whole number nor a
      decimal fraction. */
  lemma MinutesKind(t: string, k: nat)
    requires 1 <= k && k + 4 == |t| && DigitRun(t, 0) == k && t[k..] == " min"
    ensures IsMinutes(t) && !IsDecimal(t) && !IsDecimalFraction(t)
  {
    assert t[k] == t[k..][0] == ' ';
    assert !IsDigit(t[k]);
    assert !AllDigits(t);
    MinutesTail(t, k);
  }

  lemma MinutesTail(t: string, k: nat)
    requires k + 4 == |t| && t[k..] == " min"
    ensures SpaceRun(t, k) == 1 && t[k + SpaceRun(t, k)..] == "min"
  {
    assert t[k] == ' ' && t[k + 1] == 'm';
    assert IsSpace(t[k]) && !IsSpace(t[k + 1]);
    assert SpaceRun(t, k + 1) == 0;
    assert t[k + 1..] == t[k..][1..];
  }

  /** `"<d> min"` reads as the number `d` spells. */
  lemma SafeNumMinutesOf(d: string, default: Value)
    requires IsDecimal(d)
    ensures SafeNum(VStr(d + " min"), default) == VInt(DigitsValue(d))
  {
    MinutesShape(d);
    var t := d + " min";
    assert ReadNumber(t) == Some(VInt(DigitsValue(d)));
    SafeNumOfStripped(t, default, VInt(DigitsValue(d)));
  }

  /** A duration written `"<n> min"` reads back as the number of minutes. */
  lemma SafeNumMinutes(n: nat, default: Value)
    ensures SafeNum(VStr(NatToDigits(n) + " min"), default) == VInt(n)
  {
    DigitsRoundTrip(n);
    SafeNumMinutesOf(NatToDigits(n), default);
  }

  // ---------------------------------------------------------------- get_env

  /** Is the variable set to something that is not blank? */
  predicate EnvSet(env: map<string, string>, name: string) {
    name in env && Strip(env[name]) != ""
  }

  /** What `get_env(*names, default=default)` returns. */
  function EnvLookup(env: map<string, string>, names: seq<string>, default: Option<string>): Option<string> {
    if names == [] then default
    else if EnvSet(env, names[0]) then Some(Strip(env[names[0]]))
    else EnvLookup(env, names[1..], default)
  }

  /** `get_env` returns the stripped value of the first listed variable that
      is set to something non-blank. */
  lemma {:induction false} EnvLookupAt(env: map<string, string>, names: seq<string>, default: Option<string>, i: nat)
    requires i < |names| && EnvSet(env, names[i])
    requires forall j :: 0 <= j < i ==> !EnvSet(env, names[j])
    ensures EnvLookup(env, names, default) == Some(Strip(env[names[i]]))
    decreases i
  {
    if i > 0 {
      assert !EnvSet(env, names[0]);
      assert EnvLookup(env, names, default) == EnvLookup(env, names[1..], default);
      assert names[1..][i - 1] == names[i];
      forall j | 0 <= j < i - 1
        ensures !EnvSet(env, names[1..][j])
      {
        assert names[1..][j] == names[j + 1];
      }
      EnvLookupAt(env, names[1..], default, i - 1);
    }
  }

  /** With none of the variables set, `get_env` returns `default`. */
  lemma {:induction false} EnvLookupUnset(env: map<string, string>, names: seq<string>, default: Option<string>)
    requires forall i :: 0 <= i < |names| ==> !EnvSet(env, names[i])
    ensures EnvLookup(env, names, default) == default
    decreases |names|
  {
    if names != [] {
      assert !EnvSet(env, names[0]);
      forall i | 0 <= i < |names[1..]|
        ensures !EnvSet(env, names[1..][i])
      {
        assert names[1..][i] == names[i + 1];
      }
      EnvLookupUnset(env, names[1..], default);
    }
  }

  /** The search loop of `get_env`. */
  method GetEnv(env: map<string, string>, names: seq<string>, default: Option<string>) returns (r: Option<string>)
    ensures r == EnvLookup(env, names, default)
  {
    var i := 0;
    while i < |names|
      invariant 0 <= i <= |names|
      invariant EnvLookup(env, names[i..], default) == EnvLookup(env, names, default)
    {
      var a := names[i];
      if a in env {
        var v := Strip(env[a]);
        if |v| > 0 {
          return Some(v);
        }
      }
      assert names[i..][1..] == names[i + 1..];
      i := i + 1;
    }
    return default;
  }
}
