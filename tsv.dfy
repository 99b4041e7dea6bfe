/**
 * core/tsv.py: the IMDb dataset field parser and the row streams built on
 * it.  A dataset is an in-memory sequence of rows of text cells, the first
 * of them the header; a stream is the sequence of rows it yielded before it
 * stopped, together with the exception that stopped it, if any.  Float
 * parsing (`averageRating`) is a parameter.
 */
module Tsv {

  import opened Values
  import opened Text

  /** `float(s)` on a stripped string; `None` stands for `ValueError`. */
  type FloatParser = string -> Option<real>

  predicate IsCountKey(k: string) { k == "numVotes" || k == "averageRating" }
  predicate IsListKey(k: string) { k == "directors" || k == "writers" }
  predicate IsIntKey(k: string) {
    k == "numVotes" || k == "ordering" || k == "startYear" || k == "endYear" || k == "runtimeMinutes"
  }

  /** The value after the strip of a string. */
  function Stripped(v: Value): Value {
    if v.VStr? then VStr(Strip(v.s)) else v
  }

  /** `''` and `'\N'` after stripping, or `None`: the field is missing. */
  predicate Missing(v: Value) {
    v.VNone? || (v.VStr? && (Strip(v.s) == "" || Strip(v.s) == "\\N"))
  }

  /** `int(v) == 1` for the values `isOriginalTitle` admits: `'0'`, `'1'`
      and any number equal to 0 or 1 (so `True`, `False`, `1.0`). */
  function TitleFlag(v: Value): Option<bool> {
    if v == VStr("0") then Some(false)
    else if v == VStr("1") then Some(true)
    else if Numeric(v) == Some(0.0) then Some(false)
    else if Numeric(v) == Some(1.0) then Some(true)
    else None
  }

  /** `int(s)` on a stripped string: an optional sign and ASCII digits. */
  function ParseInt(s: string): (r: Option<int>)
    ensures IsDecimal(s) ==> r == Some(DigitsValue(s))
    ensures s == "" ==> r.None?
  {
    if IsDecimal(s) then Some(DigitsValue(s))
    else if |s| >= 2 && (s[0] == '-' || s[0] == '+') && IsDecimal(s[1..]) then
      var n: int := DigitsValue(s[1..]);
      Some(if s[0] == '-' then -n else n)
    else None
  }

  /** `_parse_key_val(k, v)` with the exception a bad `isOriginalTitle`
      raises given as `badTitle`. */
  function ParseKeyValWith(k: string, v: Value, toFloat: FloatParser, badTitle: Exc): Result<Value> {
    if Missing(v) then
      if IsCountKey(k) then Ok(VInt(0))
      else if IsListKey(k) then Ok(VTuple([]))
      else Ok(VNone)
    else if k == "isOriginalTitle" then
      match TitleFlag(Stripped(v))
      case Some(b) => Ok(VBool(b))
      case None => Err(badTitle)
    else if !v.VStr? then Ok(v)
    else
      var s := Strip(v.s);
      if IsListKey(k) then Ok(VTuple(Strs(SplitAround(',', s))))
      else if k == "averageRating" then
        (match toFloat(s) case Some(x) => Ok(VFloat(x)) case None => Err(ValueError))
      else if IsIntKey(k) then
        (match ParseInt(s) case Some(n) => Ok(VInt(n)) case None => Err(ValueError))
      else Ok(VStr(s))
  }

  function Strs(xs: seq<string>): (r: seq<Value>)
    ensures |r| == |xs| && forall i :: 0 <= i < |xs| ==> r[i] == VStr(xs[i])
  {
    seq(|xs|, i requires 0 <= i < |xs| => VStr(xs[i]))
  }

  /** `_parse_key_val` as written: the bad-`isOriginalTitle` raise calls the
      two-argument `KeyValueError` with one argument, which is a
      `TypeError`. */
  function ParseKeyValAsWritten(k: string, v: Value, toFloat: FloatParser): Result<Value> {
    ParseKeyValWith(k, v, toFloat, TypeError)
  }

  /** `_parse_key_val` as intended: a bad `isOriginalTitle` raises
      `KeyValueError(k, v)`. */
  function ParseKeyVal(k: string, v: Value, toFloat: FloatParser): (r: Result<Value>)
    ensures Missing(v) ==> r == Ok(if IsCountKey(k) then VInt(0) else if IsListKey(k) then VTuple([]) else VNone)
    ensures !Missing(v) && k == "isOriginalTitle" ==>
      if TitleFlag(Stripped(v)).Some? then r == Ok(VBool(TitleFlag(Stripped(v)).value))
      else r == Err(KeyValueError(k, Stripped(v)))
    ensures !Missing(v) && k != "isOriginalTitle" && !v.VStr? ==> r == Ok(v)
    ensures r.Err? ==> r.error == ValueError || r.error == KeyValueError(k, Stripped(v))
    ensures r.Ok? && IsListKey(k) && v.VStr? && !Missing(v) ==>
      r.value.VTuple? && forall x :: x in r.value.items ==> x.VStr? && ',' !in x.s
  {
    ListPieces(v);
    ParseKeyValWithErr(k, v, toFloat, KeyValueError(k, Stripped(v)));
    ParseKeyValWith(k, v, toFloat, KeyValueError(k, Stripped(v)))
  }

  /** A present string cell of any column but the title flag: list columns
      split at commas with their surrounding blanks, the rating parses as a
      float, integer columns as an int, and every other column keeps the
      stripped text. */
  lemma ParseKeyValText(k: string, v: Value, toFloat: FloatParser)
    requires !Missing(v) && v.VStr? && k != "isOriginalTitle"
    ensures IsListKey(k) ==> ParseKeyVal(k, v, toFloat) == Ok(VTuple(Strs(SplitAround(',', Strip(v.s)))))
    ensures k == "averageRating" ==>
      ParseKeyVal(k, v, toFloat) == (if toFloat(Strip(v.s)).Some? then Ok(VFloat(toFloat(Strip(v.s)).value)) else Err(ValueError))
    ensures IsIntKey(k) && !IsListKey(k) && k != "averageRating" ==>
      ParseKeyVal(k, v, toFloat) == (if ParseInt(Strip(v.s)).Some? then Ok(VInt(ParseInt(Strip(v.s)).value)) else Err(ValueError))
    ensures !IsListKey(k) && k != "averageRating" && !IsIntKey(k) ==> ParseKeyVal(k, v, toFloat) == Ok(VStr(Strip(v.s)))
  {
  }

  /** A `directors`/`writers` cell whose commas carry no surrounding blanks
      splits into pieces that join back with `,` to the stripped cell. */
  lemma ListColumnRoundTrip(k: string, v: Value, toFloat: FloatParser)
    requires IsListKey(k) && v.VStr? && !Missing(v) && Tight(',', Strip(v.s))
    ensures exists pieces :: ParseKeyVal(k, v, toFloat) == Ok(VTuple(Strs(pieces))) && Join(pieces, [',']) == Strip(v.s)
  {
    var pieces := SplitAround(',', Strip(v.s));
    SplitAroundJoin(',', Strip(v.s));
    assert ParseKeyVal(k, v, toFloat) == Ok(VTuple(Strs(pieces)));
  }

  lemma ParseKeyValWithErr(k: string, v: Value, toFloat: FloatParser, bad: Exc)
    ensures var r := ParseKeyValWith(k, v, toFloat, bad);
      r.Err? ==> r.error == ValueError || r.error == bad
  {
  }

  lemma ListPieces(v: Value)
    ensures v.VStr? ==> forall x :: x in Strs(SplitAround(',', Strip(v.s))) ==> x.VStr? && ',' !in x.s
  {
    if v.VStr? {
      SplitAroundNoSep(',', Strip(v.s));
      StrsNoSep(',', SplitAround(',', Strip(v.s)));
    }
  }

  lemma StrsNoSep(c: char, parts: seq<string>)
    requires forall p :: p in parts ==> c !in p
    ensures forall x :: x in Strs(parts) ==> x.VStr? && c !in x.s
  {
    var r := Strs(parts);
    forall x | x in r ensures x.VStr? && c !in x.s {
      var i :| 0 <= i < |r| && r[i] == x;
      assert parts[i] in parts;
    }
  }

  /** `_parse_val((k, v))`: any `ValueError` (so `KeyValueError` too) becomes
      `KeyValueError(k, v)` with the field as it came; others escape. */
  function WrapValueError(k: string, v: Value, r: Result<Value>): Result<Value> {
    if r.Err? && (r.error.ValueError? || r.error.KeyValueError?) then Err(KeyValueError(k, v)) else r
  }

  function ParseValAsWritten(k: string, v: Value, toFloat: FloatParser): Result<Value> {
    WrapValueError(k, v, ParseKeyValAsWritten(k, v, toFloat))
  }

  function ParseVal(k: string, v: Value, toFloat: FloatParser): (r: Result<Value>)
    ensures r.Err? ==> r.error == KeyValueError(k, v)
  {
    WrapValueError(k, v, ParseKeyVal(k, v, toFloat))
  }

  /** `"2"` is present and is not a flag `isOriginalTitle` admits. */
  lemma TitleTwo()
    ensures !Missing(VStr("2")) && Stripped(VStr("2")) == VStr("2") && TitleFlag(VStr("2")).None?
  {
    var v := VStr("2");
    assert !IsSpace('2');
    assert Strip("2") == "2";
    assert !Missing(v) && Stripped(v) == v;
    assert TitleFlag(v).None? by {
      assert v != VStr("0") && v != VStr("1") && Numeric(v).None?;
    }
  }

  /** So parsing it raises whatever the bad-flag branch raises. */
  lemma BadTitleRaises(toFloat: FloatParser, bad: Exc)
    ensures ParseKeyValWith("isOriginalTitle", VStr("2"), toFloat, bad) == Err(bad)
  {
    TitleTwo();
  }

  /** A bad `isOriginalTitle` escapes `_parse_val` as a `TypeError`, not as
      the `KeyValueError` every other bad field becomes. */
  lemma TitleErrorAsWritten(toFloat: FloatParser)
    ensures ParseValAsWritten("isOriginalTitle", VStr("2"), toFloat) == Err(TypeError)
    ensures ParseVal("isOriginalTitle", VStr("2"), toFloat) == Err(KeyValueError("isOriginalTitle", VStr("2")))
  {
    BadTitleRaises(toFloat, TypeError);
    assert ParseKeyValAsWritten("isOriginalTitle", VStr("2"), toFloat) == Err(TypeError);
    TitleTwo();
    assert ParseKeyVal("isOriginalTitle", VStr("2"), toFloat).Err?;
  }

  /** The intended and the as-written parser agree on every field but a bad
      `isOriginalTitle`. */
  lemma ParseAgreesAsWritten(k: string, v: Value, toFloat: FloatParser)
    requires k != "isOriginalTitle" || Missing(v) || TitleFlag(Stripped(v)).Some?
    ensures ParseValAsWritten(k, v, toFloat) == ParseVal(k, v, toFloat)
  {
  }

  lemma DecimalPresent(s: string)
    requires IsDecimal(s)
    ensures Strip(s) == s && !Missing(VStr(s)) && Stripped(VStr(s)) == VStr(s)
  {
    assert !IsSpace(s[0]) && !IsSpace(s[|s| - 1]);
    assert s != "\\N" by { assert IsDigit(s[0]); }
  }

  lemma IntFieldWith(k: string, s: string, toFloat: FloatParser, bad: Exc, n: int)
    requires IsIntKey(k) && Strip(s) == s && !Missing(VStr(s)) && ParseInt(s) == Some(n)
    ensures ParseKeyValWith(k, VStr(s), toFloat, bad) == Ok(VInt(n))
  {
    IntKeyKind(k);
  }

  lemma IntKeyKind(k: string)
    requires IsIntKey(k)
    ensures k != "isOriginalTitle" && !IsListKey(k) && k != "averageRating"
  {
    if k == "numVotes" {
    } else if k == "ordering" {
    } else if k == "startYear" {
    } else if k == "endYear" {
    } else {
      assert k == "runtimeMinutes";
    }
  }

  /** An integer column holding a decimal string reads as its number. */
  lemma IntColumnDecimal(k: string, s: string, toFloat: FloatParser)
    requires IsIntKey(k) && IsDecimal(s)
    ensures ParseVal(k, VStr(s), toFloat) == Ok(VInt(DigitsValue(s)))
  {
    DecimalPresent(s);
    IntFieldWith(k, s, toFloat, KeyValueError(k, VStr(s)), DigitsValue(s));
  }

  /** Integer columns read back the numbers they print. */
  lemma IntColumnRoundTrip(k: string, n: nat, toFloat: FloatParser)
    requires IsIntKey(k)
    ensures ParseVal(k, VStr(NatToDigits(n)), toFloat) == Ok(VInt(n))
  {
    DigitsRoundTrip(n);
    IntColumnDecimal(k, NatToDigits(n), toFloat);
  }

  /** A list column with no comma is a one-element tuple. */
  lemma ListColumnSingle(k: string, s: string, toFloat: FloatParser)
    requires IsListKey(k) && !Missing(VStr(s)) && ',' !in Strip(s)
    ensures ParseVal(k, VStr(s), toFloat) == Ok(VTuple([VStr(Strip(s))]))
  {
    SplitAroundAbsent(',', Strip(s));
    assert Strs([Strip(s)]) == [VStr(Strip(s))];
  }

  function Min(a: nat, b: nat): nat { if a < b then a else b }

  /** `_parse_val` as `iter_list` applies it: a column name and a cell. */
  type FieldParser = (string, string) -> Result<Value>

  function Field(toFloat: FloatParser): (p: FieldParser)
    ensures forall k, c :: p(k, c) == ParseVal(k, VStr(c), toFloat)
  {
    (k: string, c: string) => ParseVal(k, VStr(c), toFloat)
  }

  /** The first column from `i` on whose field fails to parse, or the row
      width when none does. */
  function FirstBad(h: seq<string>, row: seq<string>, parse: FieldParser, i: nat): (f: nat)
    requires i <= Min(|h|, |row|)
    ensures i <= f <= Min(|h|, |row|)
    ensures forall j :: i <= j < f ==> parse(h[j], row[j]).Ok?
    ensures f < Min(|h|, |row|) ==> parse(h[f], row[f]).Err?
    decreases Min(|h|, |row|) - i
  {
    if i == Min(|h|, |row|) then i
    else if parse(h[i], row[i]).Err? then i
    else FirstBad(h, row, parse, i + 1)
  }

  /** `tuple(map(_parse_val, zip(header, row)))`: the fields of the shorter
      of the two, the first one that fails stopping the row. */
  function ParseRow(h: seq<string>, row: seq<string>, parse: FieldParser): (r: Result<seq<Value>>)
    ensures r.Ok? ==> |r.value| == Min(|h|, |row|)
    ensures r.Ok? ==> forall j :: 0 <= j < |r.value| ==> parse(h[j], row[j]) == Ok(r.value[j])
    ensures r.Ok? <==> forall j :: 0 <= j < Min(|h|, |row|) ==> parse(h[j], row[j]).Ok?
    ensures r.Err? ==> exists j :: 0 <= j < Min(|h|, |row|) && parse(h[j], row[j]) == Err(r.error)
  {
    var n := Min(|h|, |row|);
    var f := FirstBad(h, row, parse, 0);
    if f < n then Err(parse(h[f], row[f]).error)
    else Ok(seq(n, j requires 0 <= j < n => parse(h[j], row[j]).value))
  }

  /** A row stops at a field that fails with the `KeyValueError` of that
      field. */
  lemma RowErrorNamesField(h: seq<string>, row: seq<string>, toFloat: FloatParser)
    requires ParseRow(h, row, Field(toFloat)).Err?
    ensures exists j :: 0 <= j < Min(|h|, |row|) && ParseRow(h, row, Field(toFloat)).error == KeyValueError(h[j], VStr(row[j]))
    ensures Reraised(ParseRow(h, row, Field(toFloat)).error) == ValueError
  {
    var j :| 0 <= j < Min(|h|, |row|) && Field(toFloat)(h[j], row[j]) == Err(ParseRow(h, row, Field(toFloat)).error);
    assert ParseVal(h[j], VStr(row[j]), toFloat).Err?;
  }

  /** What `iter_list` raises for a row whose field raised `e`: a
      `KeyValueError` becomes `ValueError(str(row))`, any other exception
      escapes as it is. */
  function Reraised(e: Exc): Exc {
    if e.KeyValueError? then ValueError else e
  }

  /** `iter_list(url)` over the rows of the dataset: the header, then every
      row parsed against it; an empty dataset stops at once with the
      `RuntimeError` that `next` raises inside a generator, a bad field
      stops the stream. */
  method IterList(rows: seq<seq<string>>, parse: FieldParser) returns (out: seq<seq<Value>>, err: Option<Exc>)
    ensures rows == [] ==> out == [] && err == Some(RuntimeError)
    ensures rows != [] ==> 1 <= |out| <= |rows| && out[0] == Strs(rows[0])
    ensures forall j :: 1 <= j < |out| ==> ParseRow(rows[0], rows[j], parse) == Ok(out[j])
    ensures rows != [] ==> (err.None? <==> |out| == |rows|)
    ensures rows != [] && err.Some? ==>
      && |out| < |rows| && ParseRow(rows[0], rows[|out|], parse).Err?
      && err.value == Reraised(ParseRow(rows[0], rows[|out|], parse).error)
  {
    if rows == [] {
      return [], Some(RuntimeError);
    }
    var header := rows[0];
    out := [Strs(header)];
    err := None;
    var i := 1;
    while i < |rows|
      invariant 1 <= i <= |rows| && |out| == i && out[0] == Strs(header)
      invariant forall j :: 1 <= j < i ==> ParseRow(header, rows[j], parse) == Ok(out[j])
    {
      var p := ParseRow(header, rows[i], parse);
      if p.Err? {
        return out, Some(Reraised(p.error));
      }
      out := out + [p.value];
      i := i + 1;
    }
  }

  /** Position of the last occurrence of `k` in `h`, or -1. */
  function LastIndexOf(h: seq<string>, k: string): (r: int)
    ensures -1 <= r < |h|
    ensures r >= 0 ==> h[r] == k
    ensures forall j :: r < j < |h| ==> h[j] != k
    ensures r == -1 <==> k !in h
  {
    if h == [] then -1
    else if h[|h| - 1] == k then |h| - 1
    else
      var r := LastIndexOf(h[..|h| - 1], k);
      assert k in h[..|h| - 1] ==> k in h;
      assert k in h && h[|h| - 1] != k ==> k in h[..|h| - 1] by {
        if k in h && h[|h| - 1] != k {
          var i :| 0 <= i < |h| && h[i] == k;
          assert h[..|h| - 1][i] == k;
        }
      }
      r
  }

  /** `{k: i for i, k in enumerate(header)}`: a repeated column keeps its
      last position. */
  function HeaderIndex(h: seq<string>): (m: map<string, nat>)
    ensures forall k :: k in m <==> k in h
    ensures forall k :: k in m ==> m[k] as int == LastIndexOf(h, k)
  {
    map k | k in h :: LastIndexOf(h, k) as nat
  }

  /** `dict(zip(header, row))`: the first `n` columns, a repeated one keeping
      its last value. */
  function ZipDict(h: seq<string>, vals: seq<Value>): (m: map<string, Value>)
    requires |vals| <= |h|
    ensures forall k :: k in m <==> k in h[..|vals|]
    ensures forall k :: k in m ==> m[k] == vals[LastIndexOf(h[..|vals|], k)]
  {
    var hh := h[..|vals|];
    map k | k in hh :: vals[LastIndexOf(hh, k)]
  }

  /** `tuple(header[a] for a in args)`: the header position of every
      requested column, `None` for the `KeyError` of a name the header
      lacks. */
  function Indices(h: seq<string>, args: seq<string>): (r: Option<seq<nat>>)
    ensures r.Some? <==> forall c :: 0 <= c < |args| ==> args[c] in h
    ensures r.Some? ==> |r.value| == |args| && forall c :: 0 <= c < |args| ==> r.value[c] as int == LastIndexOf(h, args[c])
  {
    var index := HeaderIndex(h);
    if forall c :: 0 <= c < |args| ==> args[c] in index then
      Some(seq(|args|, c requires 0 <= c < |args| => index[args[c]]))
    else None
  }

  /** `tuple(map(lambda i: row[i], index))`, `None` for the `IndexError` of
      a position past the row. */
  function Project(row: seq<Value>, idx: seq<nat>): (r: Option<seq<Value>>)
    ensures r.Some? <==> forall c :: 0 <= c < |idx| ==> idx[c] < |row|
    ensures r.Some? ==> |r.value| == |idx| && forall c :: 0 <= c < |idx| ==> r.value[c] == row[idx[c]]
  {
    if forall c :: 0 <= c < |idx| ==> idx[c] < |row| then
      Some(seq(|idx|, c requires 0 <= c < |idx| => row[idx[c]]))
    else None
  }

  /** `iter_tuples(url, *args)`: every parsed row projected on the named
      columns, in the order asked for, by their header position; a name
      outside the header raises `KeyError` before any row, a row too short
      for a position raises `IndexError`. */
  method IterTuples(rows: seq<seq<string>>, args: seq<string>, parse: FieldParser)
    returns (out: seq<seq<Value>>, err: Option<Exc>)
    ensures rows == [] ==> out == [] && err == Some(RuntimeError)
    ensures rows != [] && (exists c :: 0 <= c < |args| && args[c] !in rows[0]) ==> out == [] && err == Some(KeyError)
    ensures forall j :: 0 <= j < |out| ==> |out[j]| == |args|
    ensures forall j, c :: 0 <= j < |out| && 0 <= c < |args| ==>
      ProjectedAt(rows, args, parse, out, j, c)
    ensures err.None? ==> rows != [] && |out| == |rows| - 1
    ensures rows != [] && (forall c :: 0 <= c < |args| ==> args[c] in rows[0]) && err.Some? ==>
      TuplesStop(rows, args, parse, |out|, err.value)
  {
    var parsed, e := IterList(rows, parse);
    if parsed == [] {
      return [], e;
    }
    var idx := Indices(rows[0], args);
    if idx.None? {
      return [], Some(KeyError);
    }
    var short: bool;
    out, short := ProjectRows(parsed, idx.value);
    err := if short then Some(IndexError) else e;
    StopReason(rows, args, parse, parsed, e, idx.value, out, short);
    ProjectionHolds(rows, args, parse, parsed, idx.value, out);
  }

  /** The projection loop of `iter_tuples` over the parsed rows after the
      header: it stops at the first row too short for a position. */
  method ProjectRows(parsed: seq<seq<Value>>, idx: seq<nat>) returns (out: seq<seq<Value>>, short: bool)
    requires |parsed| >= 1
    ensures |out| < |parsed|
    ensures forall i :: 0 <= i < |out| ==> Project(parsed[1 + i], idx) == Some(out[i])
    ensures !short ==> |out| == |parsed| - 1
    ensures short ==> 1 + |out| < |parsed| && Project(parsed[1 + |out|], idx).None?
  {
    out := [];
    short := false;
    var j := 1;
    while j < |parsed|
      invariant 1 <= j <= |parsed| && |out| == j - 1
      invariant forall i :: 0 <= i < |out| ==> Project(parsed[1 + i], idx) == Some(out[i])
    {
      var vals := Project(parsed[j], idx);
      if vals.None? {
        return out, true;
      }
      out := out + [vals.value];
      j := j + 1;
    }
  }

  /** Why `iter_tuples` stopped after `n` rows with `err`: the next row
      failed to parse and its exception was re-raised, or it parsed and was
      too short for a requested position. */
  predicate TuplesStop(rows: seq<seq<string>>, args: seq<string>, parse: FieldParser, n: nat, err: Exc) {
    && rows != [] && 1 + n < |rows|
    && var p := ParseRow(rows[0], rows[1 + n], parse);
       if p.Ok? then
         err == IndexError && exists c :: 0 <= c < |args| && LastIndexOf(rows[0], args[c]) >= |rows[1 + n]|
       else err == Reraised(p.error)
  }

  lemma StopReason(rows: seq<seq<string>>, args: seq<string>, parse: FieldParser,
                   parsed: seq<seq<Value>>, e: Option<Exc>, idx: seq<nat>, out: seq<seq<Value>>, short: bool)
    requires rows != [] && 1 <= |parsed| <= |rows|
    requires forall j :: 1 <= j < |parsed| ==> ParseRow(rows[0], rows[j], parse) == Ok(parsed[j])
    requires e.None? <==> |parsed| == |rows|
    requires e.Some? ==> (
      && ParseRow(rows[0], rows[|parsed|], parse).Err?
      && e.value == Reraised(ParseRow(rows[0], rows[|parsed|], parse).error))
    requires Indices(rows[0], args) == Some(idx)
    requires |out| < |parsed|
    requires !short ==> |out| == |parsed| - 1
    requires short ==> 1 + |out| < |parsed| && Project(parsed[1 + |out|], idx).None?
    ensures short || e.Some? ==>
      TuplesStop(rows, args, parse, |out|, if short then IndexError else e.value)
  {
    var k := 1 + |out|;
    if short {
      assert ParseRow(rows[0], rows[k], parse) == Ok(parsed[k]);
      ShortRow(rows[0], rows[k], args, parse, parsed[k], idx);
    }
  }

  /** A projection fails only on a row shorter than some requested
      position. */
  lemma ShortRow(h: seq<string>, row: seq<string>, args: seq<string>, parse: FieldParser,
                 vals: seq<Value>, idx: seq<nat>)
    requires ParseRow(h, row, parse) == Ok(vals)
    requires Indices(h, args) == Some(idx)
    requires Project(vals, idx).None?
    ensures exists c :: 0 <= c < |args| && LastIndexOf(h, args[c]) >= |row|
  {
    var c :| 0 <= c < |idx| && idx[c] >= |vals|;
    assert idx[c] as int == LastIndexOf(h, args[c]) < |h|;
  }

  /** Column `c` of output row `j` is the parsed field of dataset row
      `1 + j` under the last header column of that name. */
  predicate ProjectedAt(rows: seq<seq<string>>, args: seq<string>, parse: FieldParser,
                        out: seq<seq<Value>>, j: nat, c: nat)
    requires j < |out| && c < |args| && c < |out[j]|
  {
    && 1 + j < |rows| && args[c] in rows[0]
    && 0 <= LastIndexOf(rows[0], args[c]) < |rows[1 + j]|
    && parse(args[c], rows[1 + j][LastIndexOf(rows[0], args[c])]) == Ok(out[j][c])
  }

  /** Projected values are the parsed fields at the header positions. */
  lemma ProjectionHolds(rows: seq<seq<string>>, args: seq<string>, parse: FieldParser,
                        parsed: seq<seq<Value>>, idx: seq<nat>, out: seq<seq<Value>>)
    requires rows != [] && 1 <= |parsed| <= |rows| && |out| < |parsed|
    requires forall j :: 1 <= j < |parsed| ==> ParseRow(rows[0], rows[j], parse) == Ok(parsed[j])
    requires Indices(rows[0], args) == Some(idx)
    requires forall i :: 0 <= i < |out| ==> Project(parsed[1 + i], idx) == Some(out[i])
    ensures forall j :: 0 <= j < |out| ==> |out[j]| == |args|
    ensures forall j, c :: 0 <= j < |out| && 0 <= c < |args| ==>
      ProjectedAt(rows, args, parse, out, j, c)
  {
    forall j | 0 <= j < |out|
      ensures |out[j]| == |args|
    {
      assert Project(parsed[1 + j], idx) == Some(out[j]);
    }
    forall j, c | 0 <= j < |out| && 0 <= c < |args|
      ensures ProjectedAt(rows, args, parse, out, j, c)
    {
      var i := idx[c];
      assert 1 + j < |parsed|;
      assert Project(parsed[1 + j], idx) == Some(out[j]);
      assert out[j][c] == parsed[1 + j][i];
      assert ParseRow(rows[0], rows[1 + j], parse) == Ok(parsed[1 + j]);
      assert i < |parsed[1 + j]| == Min(|rows[0]|, |rows[1 + j]|);
      assert parse(rows[0][i], rows[1 + j][i]) == Ok(parsed[1 + j][i]);
      assert i as int == LastIndexOf(rows[0], args[c]);
      assert rows[0][i] == args[c];
      assert args[c] in rows[0];
      assert parse(args[c], rows[1 + j][LastIndexOf(rows[0], args[c])]) == Ok(out[j][c]);
    }
  }

  /** `iter_dict(url)`: every parsed row as a dict keyed by the header. */
  method IterDict(rows: seq<seq<string>>, parse: FieldParser) returns (out: seq<map<string, Value>>, err: Option<Exc>)
    ensures rows == [] ==> out == [] && err == Some(RuntimeError)
    ensures rows != [] ==> |out| < |rows| && (err.None? <==> |out| == |rows| - 1)
    ensures rows != [] && err.Some? ==>
      && 1 + |out| < |rows| && ParseRow(rows[0], rows[1 + |out|], parse).Err?
      && err.value == Reraised(ParseRow(rows[0], rows[1 + |out|], parse).error)
    ensures forall j :: 0 <= j < |out| ==>
      && ParseRow(rows[0], rows[1 + j], parse).Ok?
      && out[j] == ZipDict(rows[0], ParseRow(rows[0], rows[1 + j], parse).value)
  {
    var parsed, e := IterList(rows, parse);
    if parsed == [] {
      return [], e;
    }
    assert forall j :: 1 <= j < |parsed| ==> |parsed[j]| <= |rows[0]|;
    out := ZipRows(rows[0], parsed);
    err := e;
  }

  /** The loop of `iter_dict`: each parsed row after the header zipped with
      the header. */
  method ZipRows(h: seq<string>, parsed: seq<seq<Value>>) returns (out: seq<map<string, Value>>)
    requires |parsed| >= 1
    requires forall j :: 1 <= j < |parsed| ==> |parsed[j]| <= |h|
    ensures |out| == |parsed| - 1
    ensures forall i :: 0 <= i < |out| ==> out[i] == ZipDict(h, parsed[1 + i])
  {
    out := [];
    for j := 1 to |parsed|
      invariant |out| == j - 1
      invariant forall i :: 0 <= i < |out| ==> out[i] == ZipDict(h, parsed[1 + i])
    {
      out := out + [ZipDict(h, parsed[j])];
    }
  }
}
