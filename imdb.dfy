/**
 * core/imdb.py: the OMDb client (API key choice per IP address, the switch
 * that turns OMDb off for good), the country merge of OMDb and Wikidata,
 * the `tt` identifier scraper and the movie record.  The environment, the
 * downloaded key-index table, this machine's IP address and the HTTP layer
 * are constants of the client.
 */
module Imdb {

  import opened Values
  import opened Text
  import opened Util

  /** `Response` values OMDb marks success with: `(True, 'True', 'true')`,
      compared with `==`, so 1 and 1.0 count too. */
  predicate Accepted(v: Value) {
    PyEq(v, VBool(true)) || v == VStr("True") || v == VStr("true")
  }

  /** The index already stored for this IP, or -1.  A missing IP (`None`)
      is never a key of a JSON table. */
  function Stored(table: map<string, int>, ip: Option<string>): int {
    if ip.Some? && ip.value in table then table[ip.value] else -1
  }

  function Last(table: map<string, int>): int {
    if "" in table then table[""] else -1
  }

  /** The key index `__omdbapi` assigns: the stored one for a known IP, the
      one after the last assigned (`''`) for a new one, modulo the number of
      keys. */
  function AssignIndex(table: map<string, int>, ip: Option<string>, n: nat): (i: nat)
    requires n > 0
    ensures i < n
    ensures Stored(table, ip) >= 0 ==> i == Stored(table, ip) % n
    ensures Stored(table, ip) < 0 ==> i == (Last(table) + 1) % n
  {
    var s := Stored(table, ip);
    (if s >= 0 then s else Last(table) + 1) % n
  }

  /** JSON writes the `None` key as `"null"`. */
  function IpKey(ip: Option<string>): string {
    if ip.Some? then ip.value else "null"
  }

  /** The table `__omdbapi` dumps: both the last-assigned entry and the IP's
      entry set to the assigned index. */
  function Recorded(table: map<string, int>, ip: Option<string>, i: nat): (t: map<string, int>)
    ensures t.Keys == table.Keys + {"", IpKey(ip)}
    ensures t[""] == i && t[IpKey(ip)] == i
    ensures forall k :: k in table && k != "" && k != IpKey(ip) ==> t[k] == table[k]
  {
    table["" := i][IpKey(ip) := i]
  }

  /** A known IP keeps its key on the next run. */
  lemma KnownIpStable(table: map<string, int>, ip: Option<string>, n: nat)
    requires n > 0 && ip.Some?
    ensures AssignIndex(Recorded(table, ip, AssignIndex(table, ip, n)), ip, n) == AssignIndex(table, ip, n)
  {
  }

  /** The next new IP gets the next key, round robin. */
  lemma {:induction false} NewIpNext(table: map<string, int>, ip: Option<string>, other: string, n: nat)
    requires n > 0
    requires other != "" && other != IpKey(ip) && (other !in table || table[other] < 0)
    ensures var i := AssignIndex(table, ip, n);
      AssignIndex(Recorded(table, ip, i), Some(other), n) == (i + 1) % n
  {
    var i := AssignIndex(table, ip, n);
    var t := Recorded(table, ip, i);
    assert Stored(t, Some(other)) < 0 by {
      if other in t { assert t[other] == table[other]; }
    }
    assert Last(t) == i;
  }

  /** OMDb's answer to one request, and whether it turns OMDb off: a 401
      does; so does the "Request limit reached!" error.  A body that is not
      a dict fails on `.get`. */
  function Verdict(js: Result<Value>): (v: (Result<Value>, bool))
    ensures v.1 <==> (js == Err(HttpError(401)) || (js.Ok? && js.value.VDict? && DictGet(js.value.m, "Error") == VStr("Request limit reached!")))
    ensures v.0.Ok? && v.0.value != VNone ==>
      && v.0 == js && js.value.VDict?
      && !Truthy(DictGet(js.value.m, "Error")) && Accepted(DictGet(js.value.m, "Response"))
    ensures v.0.Err? ==> (js.Err? && v.0 == js && js != Err(HttpError(401))) || (js.Ok? && !js.value.VDict? && v.0 == Err(AttributeError))
    ensures js.Err? ==> v.0 == if js == Err(HttpError(401)) then Ok(VNone) else js
    ensures js.Ok? && js.value.VDict? ==>
      v.0 == if !Truthy(DictGet(js.value.m, "Error")) && Accepted(DictGet(js.value.m, "Response")) then js else Ok(VNone)
  {
    match js
    case Err(e) => if e == HttpError(401) then (Ok(VNone), true) else (Err(e), false)
    case Ok(body) =>
      if !body.VDict? then (Err(AttributeError), false)
      else
        var err := DictGet(body.m, "Error");
        if Truthy(err) then (Ok(VNone), err == VStr("Request limit reached!"))
        else if !Accepted(DictGet(body.m, "Response")) then (Ok(VNone), false)
        else (Ok(body), false)
  }

  /** What `__get_from_omdbapi` may return: nothing, or an accepted dict. */
  predicate Answer(v: Value) {
    v == VNone || (v.VDict? && !Truthy(DictGet(v.m, "Error")) && Accepted(DictGet(v.m, "Response")))
  }

  /** Whatever the verdict lets through is an answer. */
  lemma VerdictAnswer(js: Result<Value>)
    ensures Verdict(js).0.Ok? ==> Answer(Verdict(js).0.value)
  {
  }

  /** A numeric default keeps `safe_num` numeric. */
  lemma SafeNumNumeric(s: Value, default: Value)
    requires Numeric(default).Some?
    ensures Numeric(SafeNum(s, default)).Some?
  {
  }

  /** One film as `get` builds it. */
  datatype Movie = Movie(
    id: Value, title: Option<string>, typ: Option<string>,
    year: Value, duration: Value, votes: Value, rating: Value)

  /** `get`'s record of an OMDb dict: text fields cleaned, numbers read,
      votes and rating 0 when missing. */
  function MovieOf(id: Value, m: map<string, Value>): (r: Movie)
    ensures r.id == id
    ensures Numeric(r.votes).Some? && Numeric(r.rating).Some?
    ensures "imdbVotes" !in m ==> r.votes == VInt(0)
    ensures "imdbRating" !in m ==> r.rating == VInt(0)
    ensures "Title" !in m ==> r.title == None
    ensures "Type" !in m ==> r.typ == None
    ensures "Year" !in m ==> r.year == VNone
    ensures "Runtime" !in m ==> r.duration == VNone
    ensures r.title == SafeStr(DictGet(m, "Title"), None) && r.typ == SafeStr(DictGet(m, "Type"), None)
    ensures r.year == SafeNum(DictGet(m, "Year"), VNone) && r.duration == SafeNum(DictGet(m, "Runtime"), VNone)
    ensures r.votes == SafeNum(DictGet(m, "imdbVotes"), VInt(0)) && r.rating == SafeNum(DictGet(m, "imdbRating"), VInt(0))
  {
    var votes := SafeNum(DictGet(m, "imdbVotes"), VInt(0));
    var rating := SafeNum(DictGet(m, "imdbRating"), VInt(0));
    SafeNumNumeric(DictGet(m, "imdbVotes"), VInt(0));
    SafeNumNumeric(DictGet(m, "imdbRating"), VInt(0));
    Movie(id, SafeStr(DictGet(m, "Title"), None), SafeStr(DictGet(m, "Type"), None),
          SafeNum(DictGet(m, "Year"), VNone), SafeNum(DictGet(m, "Runtime"), VNone), votes, rating)
  }

  /** `get_countries`' choice for one id from the OMDb codes `o` and the
      Wikidata codes `w`: the sorted common codes, else Wikidata's, else
      OMDb's, else nothing. */
  function CountryOf(o: seq<string>, w: seq<string>): (r: Option<string>)
    ensures r.None? <==> o == [] && w == []
    ensures Elems(o) * Elems(w) != {} ==> r == Some(Join(SortedStrings(Elems(o) * Elems(w)), " "))
    ensures Elems(o) * Elems(w) == {} && w != [] ==> r == Some(Join(w, " "))
    ensures Elems(o) * Elems(w) == {} && w == [] && o != [] ==> r == Some(Join(o, " "))
  {
    var common := Elems(o) * Elems(w);
    if common != {} then Some(Join(SortedStrings(common), " "))
    else if w != [] then Some(Join(w, " "))
    else if o != [] then Some(Join(o, " "))
    else None
  }

  predicate Words(xs: seq<string>) {
    forall i :: 0 <= i < |xs| ==> xs[i] != [] && NoSpace(xs[i])
  }

  /** With space-free codes the chosen string splits back into the codes it
      was made of, each from one of the two sources, and the common codes
      come out sorted. */
  lemma CountryWords(o: seq<string>, w: seq<string>)
    requires Words(o) && Words(w)
    ensures CountryOf(o, w).Some? ==>
      var words := SplitWs(CountryOf(o, w).value);
      forall x :: x in words ==> x in o || x in w
    ensures Elems(o) * Elems(w) != {} ==>
      SplitWs(CountryOf(o, w).value) == SortedStrings(Elems(o) * Elems(w))
  {
    var common := Elems(o) * Elems(w);
    if common != {} {
      var s := SortedStrings(common);
      assert Words(s) by {
        forall i | 0 <= i < |s| ensures s[i] != [] && NoSpace(s[i]) {
          assert s[i] in common;
          var j :| 0 <= j < |o| && o[j] == s[i];
        }
      }
      SplitWsJoin(s);
    } else if w != [] {
      SplitWsJoin(w);
    } else if o != [] {
      SplitWsJoin(o);
    }
  }

  /** `get_countries`' final loop: every id with a code from either source
      gets its choice. */
  method MergeCountries(ids: seq<string>, c1: map<string, seq<string>>, c2: map<string, seq<string>>)
    returns (r: map<string, string>)
    ensures forall k :: k in r <==> k in ids && CountryOf(Codes(c1, k), Codes(c2, k)).Some?
    ensures forall k :: k in r ==> r[k] == CountryOf(Codes(c1, k), Codes(c2, k)).value
  {
    r := Collect(ids, k => CountryOf(Codes(c1, k), Codes(c2, k)));
  }

  /** The loop itself: every id whose choice is not `None` gets it. */
  method Collect(ids: seq<string>, choose: string -> Option<string>) returns (r: map<string, string>)
    ensures forall k :: k in r <==> k in ids && choose(k).Some?
    ensures forall k :: k in r ==> r[k] == choose(k).value
  {
    r := map[];
    for i := 0 to |ids|
      invariant forall k :: k in r <==> k in ids[..i] && choose(k).Some?
      invariant forall k :: k in r ==> r[k] == choose(k).value
    {
      var k := ids[i];
      assert ids[..i + 1] == ids[..i] + [k];
      var c := choose(k);
      if c.Some? {
        r := r[k := c.value];
      }
    }
    assert ids[..|ids|] == ids;
  }

  /** `c.get(k, tuple())` */
  function Codes(c: map<string, seq<string>>, k: string): seq<string> {
    if k in c then c[k] else []
  }

  // ---------------------------------------------------------------- scrape

  predicate IsWordChar(c: char) {
    ('a' <= c <= 'z') || ('A' <= c <= 'Z') || IsDigit(c) || c == '_'
  }

  /** Does `\btt\d+` match at `i`? */
  predicate TtAt(s: string, i: nat) {
    i + 2 < |s| && s[i] == 't' && s[i + 1] == 't' && IsDigit(s[i + 2]) && (i == 0 || !IsWordChar(s[i - 1]))
  }

  function TtId(s: string, i: nat): (r: string)
    requires TtAt(s, i)
    ensures |r| >= 3 && r[..2] == "tt" && IsDecimal(r[2..])
    ensures i + |r| <= |s| && s[i..i + |r|] == r && (i + |r| == |s| || !IsDigit(s[i + |r|]))
  {
    var r := s[i..i + 2 + DigitRun(s, i + 2)];
    assert r[2..] == s[i + 2..i + 2 + DigitRun(s, i + 2)];
    r
  }

  /** `set(re.findall(r"\btt\d+", body))` */
  function TtIds(s: string): (r: set<string>)
    ensures forall x :: x in r ==> |x| >= 3 && x[..2] == "tt" && IsDecimal(x[2..])
  {
    set i | 0 <= i < |s| && TtAt(s, i) :: TtId(s, i)
  }

  /** `x` occurs in `s` at `i` as a whole `\btt\d+` match: a word boundary
      before it and no digit after it. */
  predicate FoundAt(s: string, i: nat, x: string) {
    TtAt(s, i) && i + |x| <= |s| && s[i..i + |x|] == x && (i + |x| == |s| || !IsDigit(s[i + |x|]))
  }

  lemma TtIdFound(s: string, i: nat)
    requires TtAt(s, i)
    ensures FoundAt(s, i, TtId(s, i))
  {
  }

  /** `findall` misses no match, and every identifier it finds is a whole
      match somewhere in the body. */
  lemma TtIdsExact(s: string)
    ensures forall i :: 0 <= i < |s| && TtAt(s, i) ==> TtId(s, i) in TtIds(s)
    ensures forall x :: x in TtIds(s) ==> exists i :: 0 <= i < |s| && FoundAt(s, i, x)
  {
    var ids := TtIds(s);
    forall x | x in ids ensures exists i :: 0 <= i < |s| && FoundAt(s, i, x) {
      var i :| 0 <= i < |s| && TtAt(s, i) && TtId(s, i) == x;
      TtIdFound(s, i);
    }
  }

  /** A body that is one identifier yields exactly that identifier. */
  lemma TtIdsSingle(d: string)
    requires IsDecimal(d)
    ensures TtIds("tt" + d) == {"tt" + d}
  {
    var s := "tt" + d;
    assert TtAt(s, 0);
    DigitRunAll(s, 2);
    assert s[2..] == d;
    assert TtId(s, 0) == s;
    forall i | 0 < i < |s| ensures !TtAt(s, i) {
      assert s[i - 1] == 't' || IsDigit(s[i - 1]);
    }
  }

  /** `__scrape(url)`: identifiers in the body of a non-blank URL; nothing
      for a non-string or blank URL or a missing body.  The `@cache` in
      front of it hashes the URL first, so an unhashable one raises. */
  function ScrapeOf(url: Value, fetchBody: string -> Result<Option<string>>): (r: Result<set<string>>)
    ensures !Hashable(url) ==> r == Err(TypeError)
    ensures Hashable(url) && (!url.VStr? || Strip(url.s) == "") ==> r == Ok({})
    ensures url.VStr? && Strip(url.s) != "" ==>
      match fetchBody(Strip(url.s))
      case Err(e) => r == Err(e)
      case Ok(None) => r == Ok({})
      case Ok(Some(b)) => r == Ok(TtIds(b))
    ensures r.Err? ==> !Hashable(url) || (url.VStr? && fetchBody(Strip(url.s)).Err?)
  {
    if !Hashable(url) then Err(TypeError)
    else if !url.VStr? then Ok({})
    else
      var u := Strip(url.s);
      if u == "" then Ok({})
      else match fetchBody(u)
        case Err(e) => Err(e)
        case Ok(None) => Ok({})
        case Ok(Some(b)) => Ok(TtIds(b))
  }

  /** The union `scrape` builds, the first error escaping. */
  function ScrapedUnion(urls: seq<Value>, scrape: Value -> Result<set<string>>): Result<set<string>>
    decreases |urls|
  {
    if urls == [] then Ok({})
    else match ScrapedUnion(urls[..|urls| - 1], scrape)
      case Err(e) => Err(e)
      case Ok(s) => match scrape(urls[|urls| - 1])
        case Err(e) => Err(e)
        case Ok(t) => Ok(s + t)
  }

  /** The union holds exactly the identifiers of every URL's body, and
      succeeds exactly when every URL does. */
  lemma {:induction false} ScrapedUnionSpec(urls: seq<Value>, scrape: Value -> Result<set<string>>)
    ensures ScrapedUnion(urls, scrape).Ok? <==> forall i :: 0 <= i < |urls| ==> scrape(urls[i]).Ok?
    ensures ScrapedUnion(urls, scrape).Ok? ==> forall x :: x in ScrapedUnion(urls, scrape).value <==>
      exists i :: 0 <= i < |urls| && x in scrape(urls[i]).value
    decreases |urls|
  {
    if urls != [] {
      var n := |urls| - 1;
      var init := urls[..n];
      ScrapedUnionSpec(init, scrape);
      assert forall i :: 0 <= i < n ==> init[i] == urls[i];
      var u := ScrapedUnion(init, scrape);
      var t := scrape(urls[n]);
      if u.Ok? && t.Ok? {
        assert ScrapedUnion(urls, scrape) == Ok(u.value + t.value);
        forall x ensures x in u.value + t.value <==> exists i :: 0 <= i < |urls| && x in scrape(urls[i]).value {
          if x in u.value {
            var i :| 0 <= i < n && x in scrape(init[i]).value;
            assert x in scrape(urls[i]).value;
          }
          if exists i :: 0 <= i < |urls| && x in scrape(urls[i]).value {
            var i :| 0 <= i < |urls| && x in scrape(urls[i]).value;
            if i < n {
              assert x in scrape(init[i]).value;
            }
          }
        }
      } else if u.Err? {
        assert ScrapedUnion(urls, scrape).Err?;
        var i :| 0 <= i < n && !scrape(init[i]).Ok?;
        assert !scrape(urls[i]).Ok?;
      } else {
        assert ScrapedUnion(urls, scrape).Err?;
      }
    }
  }

  /** A failed union carries the error of the first URL that fails. */
  lemma {:induction false} ScrapedUnionFirstErr(urls: seq<Value>, scrape: Value -> Result<set<string>>)
    requires ScrapedUnion(urls, scrape).Err?
    ensures exists i :: (0 <= i < |urls| && scrape(urls[i]).Err? && ScrapedUnion(urls, scrape).error == scrape(urls[i]).error
                         && forall j :: 0 <= j < i ==> scrape(urls[j]).Ok?)
    decreases |urls|
  {
    var n := |urls| - 1;
    var init := urls[..n];
    assert forall j :: 0 <= j < n ==> init[j] == urls[j];
    if ScrapedUnion(init, scrape).Err? {
      ScrapedUnionFirstErr(init, scrape);
      var i :| 0 <= i < n && scrape(init[i]).Err? && ScrapedUnion(init, scrape).error == scrape(init[i]).error
        && forall j :: 0 <= j < i ==> scrape(init[j]).Ok?;
      assert scrape(urls[i]).Err?;
    } else {
      ScrapedUnionSpec(init, scrape);
      assert scrape(urls[n]).Err?;
    }
  }

  /** The part of a `Client` that its OMDb calls change: the switch, the
      chosen prefix, the dumped key table, the memo and the requests sent. */
  datatype Session = Session(active: bool, omdbBase: Option<string>, dumped: Option<map<string, int>>,
                             memo: map<string, Value>, requests: seq<string>)

  /** Every memoised answer is one `__get_from_omdbapi` may return. */
  predicate Sound(s: Session) {
    forall id :: id in s.memo ==> Answer(s.memo[id])
  }

  /** Memoising an answer keeps the memo sound. */
  lemma SoundPut(s: Session, id: string, v: Value)
    requires Sound(s) && Answer(v)
    ensures Sound(s.(memo := s.memo[id := v]))
  {
  }

  /** `get_countries`' first loop: each id OMDb answered with a record gets
      its `Country` codes through `alpha3`; a later occurrence overwrites. */
  function OmdbCodes(ids: seq<string>, vs: seq<Value>, alpha3: seq<string> -> seq<string>): (c: map<string, seq<string>>)
    requires |vs| == |ids|
    ensures forall k :: k in c ==> k in ids
    ensures ids != [] && vs[|vs| - 1].VDict? ==>
      ids[|ids| - 1] in c && c[ids[|ids| - 1]] == alpha3(TpSplit(',', SafeStr(DictGet(vs[|vs| - 1].m, "Country"), None)))
    decreases |ids|
  {
    if ids == [] then map[]
    else
      var c := OmdbCodes(ids[..|ids| - 1], vs[..|vs| - 1], alpha3);
      match vs[|vs| - 1]
      case VDict(m) => c[ids[|ids| - 1] := alpha3(TpSplit(',', SafeStr(DictGet(m, "Country"), None)))]
      case _ => c
  }

  /** One more answer: a record adds (or overwrites) its id's codes. */
  lemma OmdbCodesStep(ids: seq<string>, vs: seq<Value>, i: nat, v: Value, alpha3: seq<string> -> seq<string>)
    requires i < |ids| && |vs| == i
    ensures OmdbCodes(ids[..i + 1], vs + [v], alpha3) ==
      if v.VDict? then OmdbCodes(ids[..i], vs, alpha3)[ids[i] := alpha3(TpSplit(',', SafeStr(DictGet(v.m, "Country"), None)))]
      else OmdbCodes(ids[..i], vs, alpha3)
  {
    var js, ws := ids[..i + 1], vs + [v];
    assert js[..|js| - 1] == ids[..i] && js[|js| - 1] == ids[i];
    assert ws[..|ws| - 1] == vs && ws[|ws| - 1] == v;
  }

  /** `get_countries`' second loop: Wikidata's codes, split on blanks. */
  function WikiCodes(wiki: map<string, string>): (c: map<string, seq<string>>)
    ensures c.Keys == wiki.Keys
    ensures forall k :: k in c ==> Join(c[k], " ") == Cleaned(wiki[k])
  {
    map k | k in wiki :: SplitWs(wiki[k])
  }

  class Client {
    /** `environ.get('OMDBAPI_KEY')` */
    const keysEnv: Option<string>
    /** The key-index table as `dwn_json` obtained it. */
    const table: map<string, int>
    /** `R.ip` */
    const ip: Option<string>
    /** `R.get_json(url)` */
    const getJson: string -> Result<Value>
    /** `R.get_body(url)` */
    const fetchBody: string -> Result<Option<string>>

    var active: bool
    /** The `cached_property` slot of `__omdbapi`. */
    var omdbBase: Option<string>
    /** What `__omdbapi` dumped to `out/ip_index.json`. */
    var dumped: Option<map<string, int>>
    /** `functools.cache` of `__get_from_omdbapi`. */
    var memo: map<string, Value>
    /** `functools.cache` of `__scrape`. */
    var scraped: map<Value, set<string>>
    /** URLs sent to OMDb. */
    var requests: seq<string>

    ghost predicate Valid()
      reads this
    {
      && (forall u :: u in scraped ==> ScrapeOf(u, fetchBody) == Ok(scraped[u]))
      && Sound(Now())
    }

    constructor (keysEnv: Option<string>, table: map<string, int>, ip: Option<string>,
                 getJson: string -> Result<Value>, fetchBody: string -> Result<Option<string>>)
      ensures this.keysEnv == keysEnv && this.table == table && this.ip == ip
      ensures this.getJson == getJson && this.fetchBody == fetchBody
      ensures active && omdbBase.None? && dumped.None? && memo == map[] && scraped == map[] && requests == []
      ensures Valid()
    {
      this.keysEnv := keysEnv;
      this.table := table;
      this.ip := ip;
      this.getJson := getJson;
      this.fetchBody := fetchBody;
      active := true;
      omdbBase := None;
      dumped := None;
      memo := map[];
      scraped := map[];
      requests := [];
    }

    /** The fields `__omdbapi` and `__get_from_omdbapi` change, as a value. */
    function Now(): Session
      reads this
    {
      Session(active, omdbBase, dumped, memo, requests)
    }

    /** `__omdbapi` on a session: the prefix, and the session with the
        choice kept and the updated table dumped. */
    function Based(s: Session): (p: (Result<string>, Session))
      ensures p.1.active == s.active && p.1.memo == s.memo && p.1.requests == s.requests
      ensures s.omdbBase.Some? ==> p == (Ok(s.omdbBase.value), s)
      ensures p.0.Err? <==> s.omdbBase.None? && TpSplit(' ', keysEnv) == []
      ensures p.0.Err? ==> p == (Err(ValueError), s)
      ensures p.0.Ok? ==> p.1.omdbBase == Some(p.0.value)
    {
      if s.omdbBase.Some? then (Ok(s.omdbBase.value), s)
      else
        var keys := TpSplit(' ', keysEnv);
        if keys == [] then (Err(ValueError), s)
        else
          var i := AssignIndex(table, ip, |keys|);
          var url := "http://www.omdbapi.com/?apikey=" + keys[i] + "&i=";
          (Ok(url), s.(omdbBase := Some(url), dumped := Some(Recorded(table, ip, i))))
    }

    /** With no prefix yet and some keys, the prefix carries the key of the
        index assigned to this IP, and the table recording that index is
        dumped. */
    lemma BasedChoice(s: Session)
      requires s.omdbBase.None? && TpSplit(' ', keysEnv) != []
      ensures
        var keys := TpSplit(' ', keysEnv);
        var i := AssignIndex(table, ip, |keys|);
        && Based(s).0 == Ok("http://www.omdbapi.com/?apikey=" + keys[i] + "&i=")
        && Based(s).1 == s.(omdbBase := Some(Based(s).0.value), dumped := Some(Recorded(table, ip, i)))
    {
    }

    /** Once chosen, the prefix is kept: asking again changes nothing. */
    lemma BasedKept(s: Session)
      requires Based(s).0.Ok?
      ensures Based(Based(s).1) == Based(s)
    {
      assert Based(s).1.omdbBase == Some(Based(s).0.value);
    }

    /** `__omdbapi`: the request prefix with this IP's key; no keys is a
        `ValueError`.  The assignment is recorded in the dumped table. */
    method OmdbApi() returns (r: Result<string>)
      modifies this`omdbBase, this`dumped
      ensures (r, Now()) == Based(old(Now()))
    {
      if omdbBase.Some? {
        return Ok(omdbBase.value);
      }
      var keys := TpSplit(' ', keysEnv);
      if |keys| == 0 {
        return Err(ValueError);
      }
      var i := AssignIndex(table, ip, |keys|);
      dumped := Some(Recorded(table, ip, i));
      var url := "http://www.omdbapi.com/?apikey=" + keys[i] + "&i=";
      omdbBase := Some(url);
      r := Ok(url);
    }

    /** What `__omdbapi` gives in the current state. */
    function Prefix(): Result<string>
      reads this
    {
      Based(Now()).0
    }

    /** Whether `__get_from_omdbapi(id)` sends a request in the current
        state: the id is not memoised, OMDb is on and the prefix is known. */
    predicate Requests(id: string)
      reads this
    {
      id !in memo && active && Prefix().Ok?
    }

    /** `__get_from_omdbapi(id)` on a session, under its memo: the answer
        and the session after.  Nothing is asked once OMDb is off; else one
        request, whose verdict may turn OMDb off. */
    function Fetch(s: Session, id: string): (Result<Value>, Session)
    {
      if id in s.memo then (Ok(s.memo[id]), s)
      else if !s.active then (Ok(VNone), s.(memo := s.memo[id := VNone]))
      else
        var (b, s1) := Based(s);
        match b
        case Err(e) => (Err(e), s1)
        case Ok(base) =>
          var url := base + id;
          var v := Verdict(getJson(url));
          (v.0, s1.(active := !v.1, requests := s.requests + [url],
                    memo := if v.0.Ok? then s.memo[id := v.0.value] else s.memo))
    }

    /** What one `__get_from_omdbapi(id)` does to a session: the memo
        answers first; once OMDb is off the answer is `None`, memoised; else
        the prefix is fixed and exactly one request goes to prefix + id,
        whose verdict is the answer and may turn OMDb off, never on; only a
        successful answer is memoised, and every answer kept is accepted. */
    lemma FetchSpec(s: Session, id: string)
      ensures Fetch(s, id).1.active ==> s.active
      ensures Fetch(s, id).0.Ok? ==> Fetch(s, id).1.memo == s.memo[id := Fetch(s, id).0.value]
      ensures Fetch(s, id).0.Err? ==> Fetch(s, id).1.memo == s.memo
      ensures id in s.memo ==> Fetch(s, id) == (Ok(s.memo[id]), s)
      ensures id !in s.memo && !s.active ==> Fetch(s, id) == (Ok(VNone), s.(memo := s.memo[id := VNone]))
      ensures id !in s.memo && s.active && Based(s).0.Err? ==> Fetch(s, id) == (Err(ValueError), s)
      ensures id !in s.memo && s.active && Based(s).0.Ok? ==>
        var url := Based(s).0.value + id;
        && Fetch(s, id).0 == Verdict(getJson(url)).0
        && Fetch(s, id).1.requests == s.requests + [url]
        && Fetch(s, id).1.active == !Verdict(getJson(url)).1
        && Fetch(s, id).1.omdbBase == Based(s).1.omdbBase && Fetch(s, id).1.dumped == Based(s).1.dumped
      ensures Sound(s) ==> Sound(Fetch(s, id).1) && (Fetch(s, id).0.Ok? ==> Answer(Fetch(s, id).0.value))
    {
      if id !in s.memo && s.active && Based(s).0.Ok? {
        VerdictAnswer(getJson(Based(s).0.value + id));
      }
    }

    /** What `__get_from_omdbapi(id)` answers in the current state. */
    function Answered(id: string): Result<Value>
      reads this
    {
      Fetch(Now(), id).0
    }

    /** `get_from_omdbapi(id)` on a session: `None` and `''` ask nothing,
        a non-string is a `ValueError`. */
    function FetchValue(s: Session, id: Value): (p: (Result<Value>, Session))
      ensures !id.VStr? || id == VStr("") ==> p.1 == s
      ensures id.VStr? && id != VStr("") ==> p == Fetch(s, id.s)
    {
      if id == VNone || id == VStr("") then (Ok(VNone), s)
      else if !id.VStr? then (Err(ValueError), s)
      else Fetch(s, id.s)
    }

    /** The `get_from_omdbapi` calls of `get_countries`, in order: every
        answer and the session after, or the first error and the session
        it left. */
    function FetchAll(s: Session, ids: seq<string>): (p: (Result<seq<Value>>, Session))
      ensures p.0.Ok? ==> |p.0.value| == |ids|
      decreases |ids|
    {
      if ids == [] then (Ok([]), s)
      else
        var (vs, t) := FetchAll(s, ids[..|ids| - 1]);
        match vs
        case Err(e) => (Err(e), t)
        case Ok(a) =>
          var (v, u) := FetchValue(t, VStr(ids[|ids| - 1]));
          match v
          case Err(e) => (Err(e), u)
          case Ok(x) => (Ok(a + [x]), u)
    }

    /** One more id: its call runs on the session the earlier ones left. */
    lemma FetchAllStep(s: Session, ids: seq<string>, i: nat, vs: seq<Value>, t: Session)
      requires i < |ids| && FetchAll(s, ids[..i]) == (Ok(vs), t)
      ensures FetchAll(s, ids[..i + 1]) ==
        match FetchValue(t, VStr(ids[i])).0
        case Err(e) => (Err(e), FetchValue(t, VStr(ids[i])).1)
        case Ok(v) => (Ok(vs + [v]), FetchValue(t, VStr(ids[i])).1)
    {
      assert ids[..i + 1][..i] == ids[..i];
    }

    /** Once a prefix of the ids fails, the later ids are not asked. */
    lemma {:induction false} FetchAllPrefixErr(s: Session, ids: seq<string>, n: nat)
      requires n <= |ids| && FetchAll(s, ids[..n]).0.Err?
      ensures FetchAll(s, ids) == FetchAll(s, ids[..n])
      decreases |ids| - n
    {
      if n < |ids| {
        assert ids[..n + 1][..n] == ids[..n];
        FetchAllPrefixErr(s, ids, n + 1);
      } else {
        assert ids[..n] == ids;
      }
    }

    /** `__get_from_omdbapi(id)` under its memo: nothing once OMDb is off,
        else one request whose verdict may turn OMDb off. */
    method GetFromOmdbapiRaw(id: string) returns (r: Result<Value>)
      requires Valid()
      modifies this`active, this`omdbBase, this`dumped, this`memo, this`requests
      ensures Valid()
      ensures (r, Now()) == Fetch(old(Now()), id)
    {
      if id in memo {
        return Ok(memo[id]);
      }
      if !active {
        memo := memo[id := VNone];
        return Ok(VNone);
      }
      r := Ask(id);
    }

    /** The request branch of `__get_from_omdbapi(id)`: the id is not
        memoised and OMDb is on. */
    method Ask(id: string) returns (r: Result<Value>)
      requires Valid() && id !in memo && active
      modifies this`active, this`omdbBase, this`dumped, this`memo, this`requests
      ensures Valid()
      ensures (r, Now()) == Fetch(old(Now()), id)
    {
      ghost var s0 := Now();
      var base := OmdbApi();
      ghost var s1 := Now();
      assert (base, s1) == Based(s0);
      if base.Err? {
        return Err(base.error);
      }
      var url := base.value + id;
      requests := requests + [url];
      var v := Verdict(getJson(url));
      VerdictAnswer(getJson(url));
      if v.1 {
        active := false;
      }
      r := v.0;
      if r.Ok? {
        memo := memo[id := r.value];
        SoundPut(s0, id, r.value);
      }
      assert omdbBase == s1.omdbBase;
      assert dumped == s1.dumped;
      assert active == !v.1;
      assert requests == s0.requests + [url];
      assert Now() == s1.(active := !v.1, requests := s0.requests + [url], memo := memo);
    }

    /** `get_from_omdbapi(id)`: nothing for `None` or `''`, `ValueError` for
        a non-string. */
    method GetFromOmdbapi(id: Value) returns (r: Result<Value>)
      requires Valid()
      modifies this`active, this`omdbBase, this`dumped, this`memo, this`requests
      ensures Valid()
      ensures (r, Now()) == FetchValue(old(Now()), id)
      ensures active ==> old(active)
      ensures id == VNone || id == VStr("") ==> r == Ok(VNone) && Now() == old(Now())
      ensures id != VNone && !id.VStr? ==> r == Err(ValueError) && Now() == old(Now())
      ensures r.Ok? && r.value != VNone ==>
        r.value.VDict? && !Truthy(DictGet(r.value.m, "Error")) && Accepted(DictGet(r.value.m, "Response"))
      ensures id.VStr? && id != VStr("") ==> r == old(Answered(id.s))
      ensures id.VStr? && id != VStr("") && old(Requests(id.s)) ==>
        var url := old(Prefix()).value + id.s;
        requests == old(requests) + [url] && active == !Verdict(getJson(url)).1
      ensures !(id.VStr? && id != VStr("") && old(Requests(id.s))) ==> requests == old(requests) && active == old(active)
    {
      if id == VNone || id == VStr("") {
        return Ok(VNone);
      }
      if !id.VStr? {
        return Err(ValueError);
      }
      r := GetFromOmdbapiRaw(id.s);
    }

    /** `get(id)`: the film's record, `None` when OMDb gives nothing. */
    method Get(id: Value) returns (r: Result<Option<Movie>>)
      requires Valid()
      modifies this`active, this`omdbBase, this`dumped, this`memo, this`requests
      ensures Valid()
      ensures Now() == FetchValue(old(Now()), id).1
      ensures r.Ok? && r.value.Some? ==>
        && r.value.value.id == id
        && Numeric(r.value.value.votes).Some? && Numeric(r.value.value.rating).Some?
      ensures id == VNone || id == VStr("") ==> r == Ok(None)
      ensures id != VNone && !id.VStr? ==> r == Err(ValueError)
      ensures id.VStr? && id != VStr("") ==>
        match old(Answered(id.s))
        case Err(e) => r == Err(e)
        case Ok(v) => r == if v.VDict? then Ok(Some(MovieOf(id, v.m))) else Ok(None)
    {
      var obj := GetFromOmdbapi(id);
      if obj.Err? {
        return Err(obj.error);
      }
      if obj.value == VNone {
        return Ok(None);
      }
      r := Ok(Some(MovieOf(id, obj.value.m)));
    }

    /** `get_countries(*ids)`: OMDb's codes (through `to_alpha_3`, a
        parameter) and Wikidata's, merged per id.  `wiki` is what
        `WIKI.get_countries(*ids)` returns or raises, asked after the OMDb
        calls. */
    method GetCountries(ids: seq<string>, wiki: Result<map<string, string>>, alpha3: seq<string> -> seq<string>)
      returns (r: Result<map<string, string>>)
      requires Valid()
      modifies this`active, this`omdbBase, this`dumped, this`memo, this`requests
      ensures Valid()
      ensures Now() == FetchAll(old(Now()), ids).1
      ensures FetchAll(old(Now()), ids).0.Err? ==> r == Err(FetchAll(old(Now()), ids).0.error)
      ensures FetchAll(old(Now()), ids).0.Ok? && wiki.Err? ==> r == Err(wiki.error)
      ensures FetchAll(old(Now()), ids).0.Ok? && wiki.Ok? ==> r.Ok?
      ensures FetchAll(old(Now()), ids).0.Ok? && wiki.Ok? ==>
        var c1 := OmdbCodes(ids, FetchAll(old(Now()), ids).0.value, alpha3);
        forall k :: k in r.value <==> k in ids && CountryOf(Codes(c1, k), Codes(WikiCodes(wiki.value), k)).Some?
      ensures FetchAll(old(Now()), ids).0.Ok? && wiki.Ok? ==>
        var c1 := OmdbCodes(ids, FetchAll(old(Now()), ids).0.value, alpha3);
        forall k :: k in r.value ==> r.value[k] == CountryOf(Codes(c1, k), Codes(WikiCodes(wiki.value), k)).value
      ensures r.Ok? ==> forall k :: k in r.value ==> k in ids
      ensures r.Ok? ==> wiki.Ok? && forall k :: k in ids && k in wiki.value && SplitWs(wiki.value[k]) != [] ==> k in r.value
    {
      var c1: map<string, seq<string>> := map[];
      ghost var vs: seq<Value> := [];
      for i := 0 to |ids|
        invariant Valid()
        invariant FetchAll(old(Now()), ids[..i]) == (Ok(vs), Now())
        invariant c1 == OmdbCodes(ids[..i], vs, alpha3)
      {
        ghost var before := Now();
        var o := GetFromOmdbapi(VStr(ids[i]));
        FetchAllStep(old(Now()), ids, i, vs, before);
        if o.Err? {
          FetchAllPrefixErr(old(Now()), ids, i + 1);
          return Err(o.error);
        }
        OmdbCodesStep(ids, vs, i, o.value, alpha3);
        if o.value != VNone {
          c1 := c1[ids[i] := alpha3(TpSplit(',', SafeStr(DictGet(o.value.m, "Country"), None)))];
        }
        vs := vs + [o.value];
      }
      assert ids[..|ids|] == ids;
      if wiki.Err? {
        return Err(wiki.error);
      }
      var merged := MergeCountries(ids, c1, WikiCodes(wiki.value));
      r := Ok(merged);
    }

    /** `__scrape` as a function of the URL. */
    function Scraper(): (f: Value -> Result<set<string>>)
      ensures forall u :: f(u) == ScrapeOf(u, fetchBody)
    {
      u => ScrapeOf(u, fetchBody)
    }

    /** `__scrape(url)` under its memo. */
    method ScrapeOne(url: Value) returns (r: Result<set<string>>)
      requires Valid()
      modifies this`scraped
      ensures Valid()
      ensures r == ScrapeOf(url, fetchBody)
      ensures scraped == if r.Ok? then old(scraped)[url := r.value] else old(scraped)
    {
      if url in scraped {
        return Ok(scraped[url]);
      }
      r := ScrapeOf(url, fetchBody);
      if r.Ok? {
        scraped := scraped[url := r.value];
      }
    }

    /** `scrape(*urls)`: the sorted, de-duplicated identifiers of all the
        pages. */
    method Scrape(urls: seq<Value>) returns (r: Result<seq<string>>)
      requires Valid()
      modifies this`scraped
      ensures Valid()
      ensures ScrapedUnion(urls, Scraper()).Err? ==> r == Err(ScrapedUnion(urls, Scraper()).error)
      ensures ScrapedUnion(urls, Scraper()).Ok? ==> r == Ok(SortedStrings(ScrapedUnion(urls, Scraper()).value))
      ensures r.Ok? ==> StrictlySorted(r.value)
      ensures r.Ok? ==> scraped.Keys == old(scraped).Keys + (set u | u in urls)
      ensures old(scraped).Keys <= scraped.Keys <= old(scraped).Keys + (set u | u in urls)
    {
      var ids: set<string> := {};
      for i := 0 to |urls|
        invariant Valid()
        invariant ScrapedUnion(urls[..i], Scraper()) == Ok(ids)
        invariant scraped.Keys == old(scraped).Keys + (set u | u in urls[..i])
      {
        assert urls[..i + 1][..i] == urls[..i];
        var s := ScrapeOne(urls[i]);
        if s.Err? {
          ScrapedUnionPrefixErr(urls, i + 1, Scraper());
          return Err(s.error);
        }
        ids := ids + s.value;
      }
      assert urls[..|urls|] == urls;
      r := Ok(SortedStrings(ids));
    }
  }

  /** A failing prefix makes the whole union fail with the prefix's
      error: the later URLs are not scraped. */
  lemma {:induction false} ScrapedUnionPrefixErr(urls: seq<Value>, n: nat, scrape: Value -> Result<set<string>>)
    requires n <= |urls| && ScrapedUnion(urls[..n], scrape).Err?
    ensures ScrapedUnion(urls, scrape) == ScrapedUnion(urls[..n], scrape)
    decreases |urls| - n
  {
    if n < |urls| {
      assert urls[..n + 1][..n] == urls[..n];
      ScrapedUnionPrefixErr(urls, n + 1, scrape);
    } else {
      assert urls[..n] == urls;
    }
  }
}
