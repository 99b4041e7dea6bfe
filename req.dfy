/**
 * core/req.py: HTTP bodies with a memo table, a bounded retry loop, a JSON
 * fetch that waits and retries once on chosen status codes, and a variant
 * that swallows network and decoding errors.  The transport is a sequence
 * of outcomes, one per request actually sent; sleeps and log lines are
 * recorded as events.
 */
module Req {

  import opened Values
  import opened Text

  type Bytes = seq<bv8>

  /** What the transport does with the n-th request sent: a decoded body,
      or an exception raised by `urlopen` or the read. */
  datatype Outcome = Body(text: string) | Raise(error: Exc)

  /** The memo key of `__get_body`: url, frozen headers, data. */
  datatype Key = Key(url: string, headers: Option<map<string, string>>, data: Option<Bytes>)

  datatype ReqEvent =
    | Fetched(url: string)
    | Slept(seconds: int)
    | Critical(url: string)
    | Warned(url: string)

  /** The exceptions `get_body` retries on: `HTTPError`, `URLError`,
      `UnicodeDecodeError` and `timeout`. */
  predicate Transient(e: Exc) {
    e.HttpError? || e.UrlError? || e.UnicodeDecodeError? || e.Timeout?
  }

  /** The exceptions `safe_get_json` swallows. */
  predicate Swallowed(e: Exc) {
    Transient(e) || e.JsonDecodeError?
  }

  predicate FailsTransiently(o: Outcome) {
    o.Raise? && Transient(o.error)
  }

  /** The body `__get_body` returns: stripped, `None` when nothing is left. */
  function StripBody(b: string): Option<string> {
    var s := Strip(b);
    if |s| == 0 then None else Some(s)
  }

  /** A returned body is non-empty, has no surrounding blanks and keeps
      every visible character; `None` means the body was blank. */
  lemma StripBodySpec(b: string)
    ensures var r := StripBody(b);
      && (r.Some? ==> r.value != [] && !IsSpace(r.value[0]) && !IsSpace(r.value[|r.value| - 1]))
      && (r.Some? ==> Visible(r.value) == Visible(b))
      && (r.None? <==> Visible(b) == [])
  {
    EmptyVisible(Strip(b));
  }

  lemma EmptyVisible(s: string)
    ensures s != [] && !IsSpace(s[0]) ==> Visible(s) != []
  {
  }

  /** The frozen headers: `None` for no headers or an empty dict. */
  function Frozen(headers: map<string, string>): Option<map<string, string>> {
    if headers == map[] then None else Some(headers)
  }

  /** How many of the `n` requests from the `f0`-th on fail transiently
      before one does not: the index of the settling request, or `n`. */
  function TransientRun(net: nat -> Outcome, f0: nat, n: nat): (s: nat)
    ensures s <= n
    ensures s < n ==> !FailsTransiently(net(f0 + s))
    decreases n
  {
    if n == 0 || !FailsTransiently(net(f0)) then 0 else 1 + TransientRun(net, f0 + 1, n - 1)
  }

  /** Every request before the settling one fails transiently. */
  lemma {:induction false} TransientBefore(net: nat -> Outcome, f0: nat, n: nat, j: nat)
    requires j < TransientRun(net, f0, n)
    ensures FailsTransiently(net(f0 + j))
    decreases n
  {
    if j > 0 {
      TransientBefore(net, f0 + 1, n - 1, j - 1);
      assert f0 + 1 + (j - 1) == f0 + j;
    }
  }

  /** `k` requests for `url` with a ten-second sleep between consecutive
      ones. */
  function Tries(url: string, k: nat): seq<ReqEvent>
    decreases k
  {
    if k == 0 then [] else if k == 1 then [Fetched(url)] else Tries(url, k - 1) + [Slept(10), Fetched(url)]
  }

  function CountFetches(es: seq<ReqEvent>): nat {
    if es == [] then 0 else CountFetches(es[..|es| - 1]) + (if es[|es| - 1].Fetched? then 1 else 0)
  }

  function CountSleeps(es: seq<ReqEvent>): nat {
    if es == [] then 0 else CountSleeps(es[..|es| - 1]) + (if es[|es| - 1].Slept? then 1 else 0)
  }

  /** `k` attempts send `k` requests and sleep `k - 1` times, never after the
      last request. */
  lemma {:induction false} TriesShape(url: string, k: nat)
    requires k >= 1
    ensures CountFetches(Tries(url, k)) == k
    ensures CountSleeps(Tries(url, k)) == k - 1
    ensures Tries(url, k)[|Tries(url, k)| - 1] == Fetched(url)
    ensures forall e :: e in Tries(url, k) ==> e == Fetched(url) || e == Slept(10)
    decreases k
  {
    if k > 1 {
      TriesShape(url, k - 1);
      var t := Tries(url, k - 1);
      var t1 := t + [Slept(10)];
      assert Tries(url, k) == t1 + [Fetched(url)];
      CountLast(t, Slept(10));
      CountLast(t1, Fetched(url));
    }
  }

  lemma CountLast(es: seq<ReqEvent>, e: ReqEvent)
    ensures CountFetches(es + [e]) == CountFetches(es) + (if e.Fetched? then 1 else 0)
    ensures CountSleeps(es + [e]) == CountSleeps(es) + (if e.Slept? then 1 else 0)
  {
    assert (es + [e])[..|es|] == es;
  }

  /** `max(chances, 1)`: the number of attempts `get_body` makes. */
  function Attempts(chances: int): (n: nat)
    ensures n >= 1 && (chances >= 1 ==> n == chances)
  {
    if chances < 1 then 1 else chances
  }

  /** How many of the attempts starting at request `f0` fail transiently
      before one settles; `Attempts(chances)` when none does. */
  function Settled(net: nat -> Outcome, f0: nat, chances: int): (s: nat)
    ensures s <= Attempts(chances)
    ensures s < Attempts(chances) ==> !FailsTransiently(net(f0 + s))
  {
    TransientRun(net, f0, Attempts(chances))
  }

  /** The request that does not fail transiently is the settling one. */
  lemma SettledHere(net: nat -> Outcome, f0: nat, chances: int, j: nat)
    requires j <= Settled(net, f0, chances)
    requires !FailsTransiently(net(f0 + j))
    ensures Settled(net, f0, chances) == j
  {
    if j < Settled(net, f0, chances) {
      TransientBefore(net, f0, Attempts(chances), j);
    }
  }

  /** The events before attempt `i + 1`: `i` tries, then a nap if any. */
  function Waited(url: string, i: nat): seq<ReqEvent> {
    if i == 0 then [] else Tries(url, i) + [Slept(10)]
  }

  lemma WaitedThenTry(url: string, i: nat)
    requires i >= 1
    ensures Waited(url, i - 1) + [Fetched(url)] == Tries(url, i)
  {
  }

  /** One more failed attempt extends the log by a sleep and a request. */
  lemma TriesStep(url: string, i: nat)
    requires i >= 2
    ensures Tries(url, i - 1) + [Slept(10)] + [Fetched(url)] == Tries(url, i)
  {
  }

  class Client {
    /** The transport, indexed by the number of requests sent before. */
    const net: nat -> Outcome
    /** `json.loads` on a string; `None` stands for `JSONDecodeError`. */
    const decode: string -> Option<Value>

    /** The `functools.cache` table of `__get_body`: successful results only. */
    var memo: map<Key, Option<string>>
    /** The `cached_property` slot of `ip`. */
    var ipMemo: Option<Option<string>>
    var sent: nat
    var events: seq<ReqEvent>

    constructor (net: nat -> Outcome, decode: string -> Option<Value>)
      ensures this.net == net && this.decode == decode
      ensures memo == map[] && ipMemo.None? && sent == 0 && events == []
    {
      this.net := net;
      this.decode := decode;
      memo := map[];
      ipMemo := None;
      sent := 0;
      events := [];
    }

    /** `__get_body(url, headers, data)`: a memoised result, or one request
        whose stripped body is memoised on success. */
    method GetBodyRaw(k: Key) returns (r: Result<Option<string>>)
      modifies this
      ensures ipMemo == old(ipMemo)
      ensures k in old(memo) ==> r == Ok(old(memo)[k]) && memo == old(memo) && sent == old(sent) && events == old(events)
      ensures k !in old(memo) ==>
        && sent == old(sent) + 1 && events == old(events) + [Fetched(k.url)]
        && r == BodyOf(net(old(sent))) && memo == Remember(old(memo), k, net(old(sent)))
    {
      if k in memo {
        return Ok(memo[k]);
      }
      var o := net(sent);
      sent := sent + 1;
      events := events + [Fetched(k.url)];
      memo := Remember(memo, k, o);
      r := BodyOf(o);
    }

    /** `ip`: the body of the address service, kept once obtained. */
    method Ip() returns (r: Result<Option<string>>)
      modifies this
      ensures old(ipMemo).Some? ==> r == Ok(old(ipMemo).value) && memo == old(memo) && sent == old(sent) && events == old(events)
      ensures var k := Key("https://ifconfig.me/ip", None, None);
        old(ipMemo).None? && k in old(memo) ==>
          r == Ok(old(memo)[k]) && memo == old(memo) && sent == old(sent) && events == old(events)
      ensures var k := Key("https://ifconfig.me/ip", None, None);
        old(ipMemo).None? && k !in old(memo) ==>
          && sent == old(sent) + 1 && events == old(events) + [Fetched(k.url)]
          && r == BodyOf(net(old(sent))) && memo == Remember(old(memo), k, net(old(sent)))
      ensures r.Ok? ==> ipMemo == Some(r.value)
      ensures r.Err? ==> ipMemo == old(ipMemo)
    {
      if ipMemo.Some? {
        return Ok(ipMemo.value);
      }
      r := GetBodyRaw(Key("https://ifconfig.me/ip", None, None));
      if r.Ok? {
        ipMemo := Some(r.value);
      }
    }

    /** `get_body(url, headers, chances, data, silent)`: up to
        `max(chances, 1)` attempts, ten seconds apart, retrying only on
        transient errors; `None` once they are used up. */
    method GetBody(url: string, headers: map<string, string>, chances: int, data: Option<Bytes>, silent: bool)
      returns (r: Result<Option<string>>)
      modifies this
      ensures ipMemo == old(ipMemo)
      ensures Key(url, Frozen(headers), data) in old(memo) ==>
        && r == Ok(old(memo)[Key(url, Frozen(headers), data)])
        && memo == old(memo) && sent == old(sent) && events == old(events)
      ensures Key(url, Frozen(headers), data) !in old(memo) && Settled(net, old(sent), chances) == Attempts(chances) ==>
        && r == Ok(None) && memo == old(memo) && sent == old(sent) + Attempts(chances)
        && events == old(events) + Tries(url, Attempts(chances)) + (if silent then [] else [Critical(url)])
      ensures Key(url, Frozen(headers), data) !in old(memo) && Settled(net, old(sent), chances) < Attempts(chances) ==>
        && sent == old(sent) + Settled(net, old(sent), chances) + 1
        && events == old(events) + Tries(url, Settled(net, old(sent), chances) + 1)
        && r == BodyOf(net(old(sent) + Settled(net, old(sent), chances)))
        && memo == Remember(old(memo), Key(url, Frozen(headers), data), net(old(sent) + Settled(net, old(sent), chances)))
    {
      var k := Key(url, Frozen(headers), data);
      if k in memo {
        r := GetBodyRaw(k);
        return;
      }
      r := GetBodyTries(k, chances, silent);
    }

    /** The attempts of `get_body` once the key is known not to be memoised. */
    method GetBodyTries(k: Key, chances: int, silent: bool) returns (r: Result<Option<string>>)
      requires k !in memo
      modifies this
      ensures ipMemo == old(ipMemo)
      ensures Settled(net, old(sent), chances) == Attempts(chances) ==>
        && r == Ok(None) && memo == old(memo) && sent == old(sent) + Attempts(chances)
        && events == old(events) + Tries(k.url, Attempts(chances)) + (if silent then [] else [Critical(k.url)])
      ensures Settled(net, old(sent), chances) < Attempts(chances) ==>
        && sent == old(sent) + Settled(net, old(sent), chances) + 1
        && events == old(events) + Tries(k.url, Settled(net, old(sent), chances) + 1)
        && r == BodyOf(net(old(sent) + Settled(net, old(sent), chances)))
        && memo == Remember(old(memo), k, net(old(sent) + Settled(net, old(sent), chances)))
    {
      var n := Attempts(chances);
      var url := k.url;
      ghost var s := Settled(net, sent, chances);
      ghost var sent0 := sent;
      ghost var events0 := events;
      var i := 1;
      while true
        invariant 1 <= i <= n && i - 1 <= s
        invariant k !in memo && memo == old(memo) && ipMemo == old(ipMemo)
        invariant sent == sent0 + (i - 1)
        invariant events == events0 + Waited(url, i - 1)
        decreases n - i
      {
        ghost var o := net(sent);
        r := GetBodyRaw(k);
        WaitedThenTry(url, i);
        assert events == events0 + Tries(url, i);
        if r.Ok? || !Transient(r.error) {
          SettledHere(net, sent0, chances, i - 1);
          return;
        }
        assert FailsTransiently(o);
        if i == n {
          if !silent {
            events := events + [Critical(url)];
          }
          return Ok(None);
        }
        events := events + [Slept(10)];
        assert events == events0 + Waited(url, i);
        i := i + 1;
      }
    }

    /** One attempt of `get_json` without waits: the body, decoded. */
    method GetJsonOnce(k: Key) returns (r: Result<Value>)
      modifies this
      ensures ipMemo == old(ipMemo)
      ensures k in old(memo) ==> sent == old(sent) && events == old(events) && memo == old(memo) && r == JsonOf(decode, Ok(old(memo)[k]))
      ensures k !in old(memo) ==>
        && sent == old(sent) + 1 && events == old(events) + [Fetched(k.url)]
        && r == JsonOf(decode, BodyOf(net(old(sent))))
        && memo == Remember(old(memo), k, net(old(sent)))
    {
      var body := GetBodyRaw(k);
      if body.Err? {
        return Err(body.error);
      }
      if body.value.None? {
        return Err(TypeError);
      }
      var v := decode(body.value.value);
      r := if v.Some? then Ok(v.value) else Err(JsonDecodeError([]));
    }

    /** `get_json(url, headers, data, wait_if_status)`: an `HTTPError` whose
        status has a positive wait sleeps that long and tries once more with
        no waits; any other error propagates. */
    method GetJson(url: string, headers: map<string, string>, data: Option<Bytes>, waits: map<int, int>)
      returns (r: Result<Value>)
      modifies this
      ensures ipMemo == old(ipMemo)
      ensures Key(url, Frozen(headers), data) in old(memo) ==>
        && r == JsonOf(decode, Ok(old(memo)[Key(url, Frozen(headers), data)])) && sent == old(sent) && events == old(events)
        && memo == old(memo)
      ensures Key(url, Frozen(headers), data) !in old(memo) && HttpWait(waits, net(old(sent))) > 0 ==>
        && sent == old(sent) + 2
        && events == old(events) + [Fetched(url), Slept(HttpWait(waits, net(old(sent)))), Fetched(url)]
        && r == JsonOf(decode, BodyOf(net(old(sent) + 1)))
        && memo == Remember(old(memo), Key(url, Frozen(headers), data), net(old(sent) + 1))
      ensures Key(url, Frozen(headers), data) !in old(memo) && HttpWait(waits, net(old(sent))) <= 0 ==>
        && sent == old(sent) + 1 && events == old(events) + [Fetched(url)]
        && r == JsonOf(decode, BodyOf(net(old(sent))))
        && memo == Remember(old(memo), Key(url, Frozen(headers), data), net(old(sent)))
    {
      var k := Key(url, Frozen(headers), data);
      ghost var o := net(sent);
      ghost var e0 := events;
      r := GetJsonOnce(k);
      if r.Ok? || !r.error.HttpError? {
        NotHttpWait(decode, waits, o, k in old(memo), r);
        return;
      }
      assert k !in old(memo);
      HttpErrorRaised(decode, o);
      assert memo == old(memo) && sent == old(sent) + 1;
      var wait := WaitFor(waits, r.error.code);
      assert wait == HttpWait(waits, o);
      if wait <= 0 {
        return;
      }
      ghost var e1 := events + [Slept(wait)];
      events := events + [Slept(wait)];
      r := GetJsonOnce(k);
      assert r == JsonOf(decode, BodyOf(net(old(sent) + 1)));
      assert events == e1 + [Fetched(url)];
      assert e1 + [Fetched(url)] == e0 + [Fetched(url), Slept(wait), Fetched(url)];
    }

    /** The result `get_json` will give from the current state. */
    function JsonResult(k: Key, waits: map<int, int>): Result<Value>
      reads this
    {
      if k in memo then JsonOf(decode, Ok(memo[k]))
      else if HttpWait(waits, net(sent)) > 0 then JsonOf(decode, BodyOf(net(sent + 1)))
      else JsonOf(decode, BodyOf(net(sent)))
    }

    /** The memo table `get_json` will leave from the current state: only
        the body of the attempt that settles it is remembered. */
    function JsonMemo(k: Key, waits: map<int, int>): map<Key, Option<string>>
      reads this
    {
      if k in memo then memo
      else if HttpWait(waits, net(sent)) > 0 then Remember(memo, k, net(sent + 1))
      else Remember(memo, k, net(sent))
    }

    /** The number of requests sent once `get_json` returns. */
    function JsonSent(k: Key, waits: map<int, int>): nat
      reads this
    {
      if k in memo then sent
      else if HttpWait(waits, net(sent)) > 0 then sent + 2
      else sent + 1
    }

    /** The events `get_json` will log from the current state. */
    function JsonEvents(k: Key, waits: map<int, int>): seq<ReqEvent>
      reads this
    {
      if k in memo then []
      else if HttpWait(waits, net(sent)) > 0 then [Fetched(k.url), Slept(HttpWait(waits, net(sent))), Fetched(k.url)]
      else [Fetched(k.url)]
    }

    /** `safe_get_json(url, ...)`: network and decoding errors give `None`,
        logged unless the status is 404; any other exception escapes. */
    method SafeGetJson(url: string, headers: map<string, string>, data: Option<Bytes>, waits: map<int, int>)
      returns (r: Result<Value>)
      modifies this
      ensures ipMemo == old(ipMemo)
      ensures r.Err? ==> !Swallowed(r.error)
      ensures r == Safe(old(JsonResult(Key(url, Frozen(headers), data), waits)))
      ensures memo == old(JsonMemo(Key(url, Frozen(headers), data), waits))
      ensures sent == old(JsonSent(Key(url, Frozen(headers), data), waits))
      ensures var k := Key(url, Frozen(headers), data);
        events == old(events) + old(JsonEvents(k, waits)) + (if Warns(old(JsonResult(k, waits))) then [Warned(url)] else [])
    {
      ghost var k := Key(url, Frozen(headers), data);
      ghost var expected := JsonResult(k, waits);
      ghost var logged := JsonEvents(k, waits);
      ghost var memo1 := JsonMemo(k, waits);
      ghost var sent1 := JsonSent(k, waits);
      ghost var e0 := events;
      r := GetJson(url, headers, data, waits);
      assert r == expected;
      assert events == e0 + logged;
      assert memo == memo1 && sent == sent1;
      if r.Err? && Swallowed(r.error) {
        if !(r.error.HttpError? && r.error.code == 404) {
          events := events + [Warned(url)];
        }
        r := Ok(VNone);
      }
    }
  }

  /** What `safe_get_json` makes of the outcome of `get_json`. */
  function Safe(r: Result<Value>): (s: Result<Value>)
    ensures r.Ok? ==> s == r
    ensures r.Err? && Swallowed(r.error) ==> s == Ok(VNone)
    ensures r.Err? && !Swallowed(r.error) ==> s == r
    ensures s.Err? ==> !Swallowed(s.error)
  {
    if r.Err? && Swallowed(r.error) then Ok(VNone) else r
  }

  /** Whether `safe_get_json` logs a warning for this outcome: every
      swallowed error except a 404. */
  predicate Warns(r: Result<Value>) {
    r.Err? && Swallowed(r.error) && r.error != HttpError(404)
  }

  /** An `HTTPError` out of `get_json`'s decoding came from the transport. */
  lemma HttpErrorRaised(decode: string -> Option<Value>, o: Outcome)
    requires JsonOf(decode, BodyOf(o)).Err? && JsonOf(decode, BodyOf(o)).error.HttpError?
    ensures o == Raise(JsonOf(decode, BodyOf(o)).error)
  {
  }

  /** A result that is not an `HTTPError` means no wait was due. */
  lemma NotHttpWait(decode: string -> Option<Value>, waits: map<int, int>, o: Outcome, memoised: bool, r: Result<Value>)
    requires !memoised ==> r == JsonOf(decode, BodyOf(o))
    requires r.Ok? || !r.error.HttpError?
    ensures !memoised ==> HttpWait(waits, o) == 0
  {
  }

  /** `(wait_if_status or {}).get(code, 0)` */
  function WaitFor(waits: map<int, int>, code: int): int {
    if code in waits then waits[code] else 0
  }

  /** What one request yields to `get_json`, as `__get_body` returns it. */
  function BodyOf(o: Outcome): Result<Option<string>> {
    match o
    case Body(b) => Ok(StripBody(b))
    case Raise(e) => Err(e)
  }

  /** The memo table after a request for `k` with outcome `o`: only a
      body is remembered. */
  function Remember(memo: map<Key, Option<string>>, k: Key, o: Outcome): (m: map<Key, Option<string>>)
    ensures o.Body? ==> k in m && m[k] == StripBody(o.text) && forall k2 :: k2 != k ==> (k2 in m <==> k2 in memo)
    ensures o.Raise? ==> m == memo
  {
    if o.Body? then memo[k := StripBody(o.text)] else memo
  }

  /** `json.loads` applied to a body; `json.loads(None)` raises `TypeError`. */
  function JsonOf(decode: string -> Option<Value>, body: Result<Option<string>>): (r: Result<Value>)
    ensures body.Err? ==> r == Err(body.error)
    ensures body == Ok(None) ==> r == Err(TypeError)
    ensures body.Ok? && body.value.Some? ==>
      if decode(body.value.value).Some? then r == Ok(decode(body.value.value).value) else r == Err(JsonDecodeError([]))
  {
    match body
    case Err(e) => Err(e)
    case Ok(None) => Err(TypeError)
    case Ok(Some(t)) => if decode(t).Some? then Ok(decode(t).value) else Err(JsonDecodeError([]))
  }

  /** The wait `get_json` takes before retrying after this outcome; zero
      (no retry) for anything but an `HTTPError`. */
  function HttpWait(waits: map<int, int>, o: Outcome): int {
    if o.Raise? && o.error.HttpError? then WaitFor(waits, o.error.code) else 0
  }
}
