/**
 * core/wiki.py: the Wikidata client.  `retry_fetch` resolves a set of ids
 * in chunks, over at most three rounds with shrinking chunks; `query`
 * checks the shape of a SPARQL answer; the `get_*` helpers fold the answer
 * rows into per-id values.  The SPARQL transport, the query texts, the
 * clock and `str()` of a value or an exception are parameters.
 */
module Wiki {

  import opened Values
  import opened Text
  import opened Util

  // ------------------------------------------------------------ retry_fetch

  datatype Event = Call(chunk: seq<string>) | Sleep(seconds: int)

  /** One round of `retry_fetch`: its chunk size and the ids still
      unresolved when it starts. */
  datatype Round = Round(size: int, pending: set<string>)

  function Max(a: int, b: int): int { if a < b then b else a }

  function Min(a: int, b: int): int { if a < b then a else b }

  /** `max(1, min(prev, len(ko)) // 3)` */
  function Shrink(prev: int, pending: nat): (n: int)
    ensures n >= 1
    ensures prev >= 1 ==> n <= prev
    ensures n <= Max(1, pending / 3)
  {
    Max(1, Min(prev, pending) / 3)
  }

  /** Round `b` follows round `a`. */
  predicate Later(a: Round, b: Round) {
    b.pending != {} && b.pending <= a.pending && b.size == Shrink(a.size, |b.pending|)
  }

  /** The resolved ids and the unresolved ones split the requested ids. */
  predicate Partition<V>(all: set<string>, ko: set<string>, result: map<string, V>) {
    ko * result.Keys == {} && ko + result.Keys == all
  }

  predicate EventOk(e: Event, all: set<string>) {
    (e.Call? ==> e.chunk != [] && forall x :: x in e.chunk ==> x in all)
    && (e.Sleep? ==> e.seconds == 5 || e.seconds == 60)
  }

  predicate WellFormed(events: seq<Event>, all: set<string>) {
    forall i :: 0 <= i < |events| ==> EventOk(events[i], all)
  }

  /** Number of the five-second pauses between rounds. */
  function Naps(events: seq<Event>): nat {
    if events == [] then 0
    else Naps(events[..|events| - 1]) + (if events[|events| - 1] == Sleep(5) then 1 else 0)
  }

  lemma NapsAppend(events: seq<Event>, e: Event)
    ensures Naps(events + [e]) == Naps(events) + (if e == Sleep(5) then 1 else 0)
  {
    assert (events + [e])[..|events|] == events;
  }

  /** `error_query` after one more failure with code `c` and query `q`: the
      first of the shortest queries is kept. */
  function Keep(errs: map<int, string>, c: int, q: string): map<int, string> {
    if c !in errs || |errs[c]| > |q| then errs[c := q] else errs
  }

  /** `error_query` after the failures `fs` of one round. */
  function Shortest(fs: seq<(int, string)>): map<int, string> {
    if fs == [] then map[]
    else Keep(Shortest(fs[..|fs| - 1]), fs[|fs| - 1].0, fs[|fs| - 1].1)
  }

  lemma ShortestAppend(fs: seq<(int, string)>, c: int, q: string)
    ensures Shortest(fs + [(c, q)]) == Keep(Shortest(fs), c, q)
  {
    assert (fs + [(c, q)])[..|fs|] == fs;
  }

  /** Every code that failed has an entry, and only those. */
  lemma {:induction false} ShortestKeys(fs: seq<(int, string)>)
    ensures forall c :: c in Shortest(fs) <==> exists i :: 0 <= i < |fs| && fs[i].0 == c
  {
    if fs != [] {
      var init := fs[..|fs| - 1];
      ShortestKeys(init);
      assert forall i :: 0 <= i < |init| ==> init[i] == fs[i];
      forall c | exists i :: 0 <= i < |fs| && fs[i].0 == c ensures c in Shortest(fs) {
        var i :| 0 <= i < |fs| && fs[i].0 == c;
        if i < |init| {
          assert init[i].0 == c;
        }
      }
    }
  }

  /** No query of a recorded code is shorter than the one kept. */
  lemma {:induction false} ShortestMin(fs: seq<(int, string)>)
    ensures forall c, i :: c in Shortest(fs) && 0 <= i < |fs| && fs[i].0 == c ==> |Shortest(fs)[c]| <= |fs[i].1|
  {
    if fs != [] {
      var init := fs[..|fs| - 1];
      ShortestMin(init);
      ShortestKeys(init);
      assert forall i :: 0 <= i < |init| ==> init[i] == fs[i];
    }
  }

  /** The query kept for a code is one of its queries. */
  lemma {:induction false} ShortestFrom(fs: seq<(int, string)>)
    ensures forall c :: c in Shortest(fs) ==> exists i :: 0 <= i < |fs| && fs[i] == (c, Shortest(fs)[c])
  {
    if fs != [] {
      var init := fs[..|fs| - 1];
      var last := fs[|fs| - 1];
      ShortestFrom(init);
      var m := Shortest(init);
      forall c | c in Shortest(fs) ensures exists i :: 0 <= i < |fs| && fs[i] == (c, Shortest(fs)[c]) {
        if c == last.0 && (c !in m || |m[c]| > |last.1|) {
          assert fs[|fs| - 1] == (c, Shortest(fs)[c]);
        } else {
          var i :| 0 <= i < |init| && init[i] == (c, m[c]);
          assert fs[i] == init[i];
        }
      }
    }
  }

  /** `error_query` after a caught `WikiError`: 429 and code-less errors
      are not recorded. */
  function Record(errs: map<int, string>, e: Exc): map<int, string>
    requires e.WikiError?
  {
    if e.httpCode.Some? && e.httpCode.value != 429 then Keep(errs, e.httpCode.value, e.query) else errs
  }

  /** `{k: v for k, v in fetched.items() if v}` */
  function Truthful<V>(m: map<Value, V>, truthy: V -> bool): (f: map<Value, V>)
    ensures forall k :: k in f <==> k in m && truthy(m[k])
    ensures forall k :: k in f ==> f[k] == m[k]
  {
    map k | k in m && truthy(m[k]) :: m[k]
  }

  /** One chunk's effect on `ko`, `result` and `error_query`: a `WikiError`
      is recorded, any other error escapes, a fetched key that is not
      pending makes `ko.remove` raise. */
  function ChunkStep<V>(ko: set<string>, result: map<string, V>, errs: map<int, string>,
                        out: Result<map<Value, V>>, truthy: V -> bool): Result<(set<string>, map<string, V>, map<int, string>)>
  {
    match out
    case Err(e) => if e.WikiError? then Ok((ko, result, Record(errs, e))) else Err(e)
    case Ok(m) =>
      var f := Truthful(m, truthy);
      if forall k :: k in f ==> k.VStr? && k.s in ko then
        Ok(((set s | s in ko && VStr(s) !in f), result + (map s | s in ko && VStr(s) in f :: f[VStr(s)]), errs))
      else Err(KeyError)
  }

  /** A chunk keeps the partition, keeps only truthy values, only resolves
      pending ids (moving each one's fetched value to the result), and
      never lets a `WikiError` escape. */
  lemma ChunkStepKeeps<V>(all: set<string>, ko: set<string>, result: map<string, V>, errs: map<int, string>,
                          out: Result<map<Value, V>>, truthy: V -> bool)
    requires Partition(all, ko, result) && forall k :: k in result ==> truthy(result[k])
    ensures var n := ChunkStep(ko, result, errs, out, truthy);
      (n.Err? ==> !n.error.WikiError?)
      && (n.Ok? ==> (
        && Partition(all, n.value.0, n.value.1) && n.value.0 <= ko
        && (forall k :: k in n.value.1 ==> truthy(n.value.1[k]))
        && (forall k :: k in result ==> k in n.value.1 && n.value.1[k] == result[k])))
  {
    var n := ChunkStep(ko, result, errs, out, truthy);
    if out.Ok? && n.Ok? {
      var f := Truthful(out.value, truthy);
      assert n.value.0 == set s | s in ko && VStr(s) !in f;
      forall k | k in result ensures k !in ko {
        assert k !in ko * result.Keys;
      }
    }
  }

  /** A caught `WikiError` leaves `ko` and `result` alone. */
  lemma WikiErrorCaught<V>(ko: set<string>, result: map<string, V>, errs: map<int, string>, e: Exc, truthy: V -> bool)
    requires e.WikiError?
    ensures var n := ChunkStep(ko, result, errs, Err(e), truthy);
      n.Ok? && n.value.0 == ko && n.value.1 == result && n.value.2 == Record(errs, e)
      && (e.httpCode == Some(429) ==> n.value.2 == errs)
  {
  }

  /** A chunk with nothing truthy changes nothing. */
  lemma NothingTruthy<V>(ko: set<string>, result: map<string, V>, errs: map<int, string>,
                         m: map<Value, V>, truthy: V -> bool)
    requires forall k :: k in m ==> !truthy(m[k])
    ensures ChunkStep(ko, result, errs, Ok(m), truthy) == Ok((ko, result, errs))
  {
    assert Truthful(m, truthy) == map[];
    assert (set s | s in ko && VStr(s) !in Truthful(m, truthy)) == ko;
    assert (map s | s in ko && VStr(s) in Truthful(m, truthy) :: Truthful(m, truthy)[VStr(s)]) == map[];
    assert result + map[] == result;
  }

  /** A truthy entry for an id that is not pending raises instead of
      leaking into the result. */
  lemma ForeignKeyRaises<V>(ko: set<string>, result: map<string, V>, errs: map<int, string>,
                            m: map<Value, V>, truthy: V -> bool, k: Value)
    requires k in m && truthy(m[k]) && !(k.VStr? && k.s in ko)
    ensures ChunkStep(ko, result, errs, Ok(m), truthy) == Err(KeyError)
  {
    assert k in Truthful(m, truthy);
  }

  /** `list(ko)`: the ids in some order, each once. */
  method ListOf(s: set<string>) returns (xs: seq<string>)
    ensures forall x :: x in xs <==> x in s
    ensures Distinct(xs)
  {
    xs := [];
    var rest := s;
    while rest != {}
      invariant forall x :: x in s <==> x in xs || x in rest
      invariant forall x :: x in xs ==> x !in rest
      invariant Distinct(xs)
      invariant rest <= s
      decreases |rest|
    {
      var x :| x in rest;
      xs := xs + [x];
      rest := rest - {x};
    }
  }

  lemma {:induction false} InFlatten<T>(chunks: seq<seq<T>>, j: nat, x: T)
    requires j < |chunks| && x in chunks[j]
    ensures x in Flatten(chunks)
  {
    var init := chunks[..|chunks| - 1];
    if j < |chunks| - 1 {
      assert init[j] == chunks[j];
      InFlatten(init, j, x);
    }
  }

  lemma {:induction false} FlattenIn<T>(chunks: seq<seq<T>>, x: T)
    requires x in Flatten(chunks)
    ensures exists j :: 0 <= j < |chunks| && x in chunks[j]
  {
    var init := chunks[..|chunks| - 1];
    if x in Flatten(init) {
      FlattenIn(init, x);
      var j :| 0 <= j < |init| && x in init[j];
      assert chunks[j] == init[j];
    }
  }

  lemma FlattenPrefix<T>(chunks: seq<seq<T>>, n: nat)
    requires 0 < n <= |chunks|
    ensures Flatten(chunks[..n]) == Flatten(chunks[..n - 1]) + chunks[n - 1]
  {
    assert chunks[..n][..n - 1] == chunks[..n - 1];
  }

  /** `iter_chunk(size, list(ko))`: the chunks list every pending id once,
      in chunks of `size` but for a shorter last one, or in a single chunk
      when `size <= 0`. */
  predicate ChunksOf(size: int, ko: set<string>, chunks: seq<seq<string>>) {
    && Elems(Flatten(chunks)) == ko && Distinct(Flatten(chunks))
    && (forall j :: 0 <= j < |chunks| ==> chunks[j] != [])
    && (size >= 1 ==> forall j :: 0 <= j < |chunks| ==> |chunks[j]| <= size)
    && (size >= 1 ==> forall j :: 0 <= j < |chunks| - 1 ==> |chunks[j]| == size)
    && (size <= 0 ==> |chunks| <= 1)
  }

  /** `iter_chunk(size, list(ko))` */
  method Chunks(size: int, ko: set<string>) returns (chunks: seq<seq<string>>)
    ensures ChunksOf(size, ko, chunks)
    ensures forall j, x :: 0 <= j < |chunks| && x in chunks[j] ==> x in ko
    ensures forall x :: x in ko ==> exists j :: 0 <= j < |chunks| && x in chunks[j]
  {
    var order := ListOf(ko);
    chunks := IterChunk(size, order);
    assert Elems(order) == ko;
    forall j, x | 0 <= j < |chunks| && x in chunks[j] ensures x in ko {
      InFlatten(chunks, j, x);
    }
    forall x | x in ko ensures exists j :: 0 <= j < |chunks| && x in chunks[j] {
      FlattenIn(chunks, x);
    }
  }

  /** The events of one call: the call itself, then a minute's pause after
      a 429. */
  function ChunkEvents<V>(chunk: seq<string>, out: Result<map<Value, V>>): seq<Event> {
    [Call(chunk)] + (if out.Err? && out.error.WikiError? && out.error.httpCode == Some(429) then [Sleep(60)] else [])
  }

  /** The failure one call adds to `error_query`, if any. */
  function ChunkFailures<V>(out: Result<map<Value, V>>): seq<(int, string)> {
    if out.Err? && out.error.WikiError? && out.error.httpCode.Some? && out.error.httpCode.value != 429
    then [(out.error.httpCode.value, out.error.query)]
    else []
  }

  /** The state of a round: the pending ids, the result, `error_query`, the
      events and failures so far, and the exception that escaped, if one
      did. */
  datatype Pass<V> = Pass(ko: set<string>, result: map<string, V>, errs: map<int, string>,
                          events: seq<Event>, failures: seq<(int, string)>, err: Option<Exc>)

  /** One pass of the round's loop body, the query for `chunk` having
      answered `out`. */
  function Step<V>(p: Pass<V>, chunk: seq<string>, out: Result<map<Value, V>>, truthy: V -> bool): Pass<V> {
    var n := ChunkStep(p.ko, p.result, p.errs, out, truthy);
    var events := p.events + ChunkEvents(chunk, out);
    var failures := p.failures + ChunkFailures(out);
    if n.Err? then Pass(p.ko, p.result, p.errs, events, failures, Some(n.error))
    else Pass(n.value.0, n.value.1, n.value.2, events, failures, None)
  }

  /** The round's loop over the first `n` chunks from `start`, the first
      chunk answered by call number `count`: an escaping exception ends the
      loop. */
  function Sweep<V>(start: Pass<V>, chunks: seq<seq<string>>, n: nat, count: nat,
                    fetch: (nat, seq<string>) -> Result<map<Value, V>>, truthy: V -> bool): Pass<V>
    requires n <= |chunks|
    decreases n
  {
    if n == 0 then start
    else
      var p := Sweep(start, chunks, n - 1, count, fetch, truthy);
      if p.err.Some? then p else Step(p, chunks[n - 1], fetch(count + n - 1, chunks[n - 1]), truthy)
  }

  /** Once an exception has escaped, the later chunks change nothing. */
  lemma {:induction false} SweepStops<V>(start: Pass<V>, chunks: seq<seq<string>>, k: nat, n: nat, count: nat,
                                         fetch: (nat, seq<string>) -> Result<map<Value, V>>, truthy: V -> bool)
    requires k <= n <= |chunks| && Sweep(start, chunks, k, count, fetch, truthy).err.Some?
    ensures Sweep(start, chunks, n, count, fetch, truthy) == Sweep(start, chunks, k, count, fetch, truthy)
    decreases n
  {
    if k < n {
      SweepStops(start, chunks, k, n - 1, count, fetch, truthy);
      var p := Sweep(start, chunks, n - 1, count, fetch, truthy);
      assert p.err.Some?;
      assert Sweep(start, chunks, n, count, fetch, truthy) == p;
    }
  }

  /** A chunk the sweep reaches is one more `Step`. */
  lemma SweepNext<V>(start: Pass<V>, chunks: seq<seq<string>>, j: nat, count: nat,
                     fetch: (nat, seq<string>) -> Result<map<Value, V>>, truthy: V -> bool,
                     p: Pass<V>, out: Result<map<Value, V>>)
    requires j < |chunks| && Sweep(start, chunks, j, count, fetch, truthy) == p && p.err.None?
    requires out == fetch(count + j, chunks[j])
    ensures Sweep(start, chunks, j + 1, count, fetch, truthy) == Step(p, chunks[j], out, truthy)
  {
  }

  /** Call `n` on `chunk` answered `v` for the id `k`. */
  ghost predicate Fetched<V>(fetch: (nat, seq<string>) -> Result<map<Value, V>>, n: nat, chunk: seq<string>, k: string, v: V) {
    fetch(n, chunk).Ok? && VStr(k) in fetch(n, chunk).value && fetch(n, chunk).value[VStr(k)] == v
  }

  /** Every resolved id holds a value that some call answered for it. */
  ghost predicate Sourced<V>(result: map<string, V>, fetch: (nat, seq<string>) -> Result<map<Value, V>>) {
    forall k :: k in result ==> exists n: nat, chunk :: Fetched(fetch, n, chunk, k, result[k])
  }

  /** A chunk only adds values its call answered. */
  lemma ChunkStepSourced<V>(ko: set<string>, result: map<string, V>, errs: map<int, string>, n: nat, chunk: seq<string>,
                            fetch: (nat, seq<string>) -> Result<map<Value, V>>, truthy: V -> bool)
    requires Sourced(result, fetch)
    ensures var s := ChunkStep(ko, result, errs, fetch(n, chunk), truthy);
      s.Ok? ==> Sourced(s.value.1, fetch)
  {
    var out := fetch(n, chunk);
    var s := ChunkStep(ko, result, errs, out, truthy);
    if s.Ok? && out.Ok? {
      var f := Truthful(out.value, truthy);
      var add := map x | x in ko && VStr(x) in f :: f[VStr(x)];
      assert s.value.1 == result + add;
      forall k | k in s.value.1 ensures exists m: nat, c :: Fetched(fetch, m, c, k, s.value.1[k]) {
        if k in add {
          assert Fetched(fetch, n, chunk, k, s.value.1[k]);
        } else {
          assert s.value.1[k] == result[k];
        }
      }
    }
  }

  /** A round only adds values its calls answered. */
  lemma {:induction false} SweepSourced<V>(start: Pass<V>, chunks: seq<seq<string>>, n: nat, count: nat,
                                           fetch: (nat, seq<string>) -> Result<map<Value, V>>, truthy: V -> bool)
    requires n <= |chunks| && Sourced(start.result, fetch)
    ensures Sourced(Sweep(start, chunks, n, count, fetch, truthy).result, fetch)
    decreases n
  {
    if n > 0 {
      var p := Sweep(start, chunks, n - 1, count, fetch, truthy);
      SweepSourced(start, chunks, n - 1, count, fetch, truthy);
      StepSourced(p, count + n - 1, chunks[n - 1], fetch, truthy);
      assert Sweep(start, chunks, n, count, fetch, truthy)
        == if p.err.Some? then p else Step(p, chunks[n - 1], fetch(count + n - 1, chunks[n - 1]), truthy);
    }
  }

  lemma StepSourced<V>(p: Pass<V>, n: nat, chunk: seq<string>,
                       fetch: (nat, seq<string>) -> Result<map<Value, V>>, truthy: V -> bool)
    requires Sourced(p.result, fetch)
    ensures Sourced((if p.err.Some? then p else Step(p, chunk, fetch(n, chunk), truthy)).result, fetch)
  {
    ChunkStepSourced(p.ko, p.result, p.errs, n, chunk, fetch, truthy);
  }

  /** The chunks of the calls among `events`, in order. */
  function Calls(events: seq<Event>): seq<seq<string>>
    decreases |events|
  {
    if events == [] then [] else (if events[0].Call? then [events[0].chunk] else []) + Calls(events[1..])
  }

  lemma {:induction false} CallsAppend(a: seq<Event>, b: seq<Event>)
    ensures Calls(a + b) == Calls(a) + Calls(b)
    decreases |a|
  {
    if a == [] {
      assert a + b == b;
    } else {
      assert (a + b)[0] == a[0];
      assert (a + b)[1..] == a[1..] + b;
      CallsAppend(a[1..], b);
    }
  }

  lemma ChunkEventsCalls<V>(chunk: seq<string>, out: Result<map<Value, V>>)
    ensures Calls(ChunkEvents(chunk, out)) == [chunk]
  {
    var evs := ChunkEvents(chunk, out);
    assert evs[0] == Call(chunk);
    if |evs| == 2 {
      assert evs[1..] == [Sleep(60)];
      assert Calls([Sleep(60)]) == [] + Calls([]);
    } else {
      assert evs[1..] == [];
    }
  }

  /** A round calls its chunks in order, one call each, and stops after the
      one whose exception escaped: when none escapes, every chunk is
      called. */
  lemma {:induction false} SweepCalls<V>(start: Pass<V>, chunks: seq<seq<string>>, n: nat, count: nat,
                                         fetch: (nat, seq<string>) -> Result<map<Value, V>>, truthy: V -> bool)
    requires n <= |chunks| && start.err.None?
    ensures var t := Sweep(start, chunks, n, count, fetch, truthy);
      && (t.err.None? ==> Calls(t.events) == Calls(start.events) + chunks[..n])
      && |Calls(t.events)| <= |Calls(start.events)| + n
    decreases n
  {
    if n > 0 {
      var p := Sweep(start, chunks, n - 1, count, fetch, truthy);
      SweepCalls(start, chunks, n - 1, count, fetch, truthy);
      if p.err.None? {
        var out := fetch(count + n - 1, chunks[n - 1]);
        StepCalls(p, chunks[n - 1], out, truthy);
        assert Sweep(start, chunks, n, count, fetch, truthy) == Step(p, chunks[n - 1], out, truthy);
        assert chunks[..n] == chunks[..n - 1] + [chunks[n - 1]];
      }
    } else {
      assert chunks[..0] == [];
    }
  }

  /** A call adds one call of its chunk to the events. */
  lemma StepCalls<V>(p: Pass<V>, chunk: seq<string>, out: Result<map<Value, V>>, truthy: V -> bool)
    ensures Calls(Step(p, chunk, out, truthy).events) == Calls(p.events) + [chunk]
  {
    ChunkEventsCalls(chunk, out);
    CallsAppend(p.events, ChunkEvents(chunk, out));
  }

  /** A round whose every call fails with a `WikiError` runs to its end and
      resolves nothing. */
  lemma {:induction false} SweepWikiErrors<V>(start: Pass<V>, chunks: seq<seq<string>>, n: nat, count: nat,
                                              fetch: (nat, seq<string>) -> Result<map<Value, V>>, truthy: V -> bool)
    requires n <= |chunks| && start.err.None?
    requires forall j :: 0 <= j < n ==> fetch(count + j, chunks[j]).Err? && fetch(count + j, chunks[j]).error.WikiError?
    ensures var t := Sweep(start, chunks, n, count, fetch, truthy);
      t.err == None && t.ko == start.ko && t.result == start.result
    decreases n
  {
    if n > 0 {
      SweepWikiErrors(start, chunks, n - 1, count, fetch, truthy);
      assert fetch(count + (n - 1), chunks[n - 1]).Err?;
    }
  }

  /** Call `n` answers `chunk` with a truthy value for each of its ids and
      nothing truthy for any other key. */
  predicate Answers<V>(out: Result<map<Value, V>>, chunk: seq<string>, truthy: V -> bool) {
    && out.Ok?
    && (forall x :: x in chunk ==> VStr(x) in out.value && truthy(out.value[VStr(x)]))
    && (forall k :: k in out.value && truthy(out.value[k]) ==> k.VStr? && k.s in chunk)
  }

  /** Every call answers its chunk in full. */
  ghost predicate AlwaysAnswers<V>(fetch: (nat, seq<string>) -> Result<map<Value, V>>, truthy: V -> bool) {
    forall n: nat, chunk :: chunk != [] ==> Answers(fetch(n, chunk), chunk, truthy)
  }

  lemma DistinctSplit(a: seq<string>, b: seq<string>)
    requires Distinct(a + b)
    ensures Distinct(a) && Distinct(b) && forall x :: x in a ==> x !in b
  {
    forall i, j | 0 <= i < j < |a| ensures a[i] != a[j] {
      assert (a + b)[i] == a[i] && (a + b)[j] == a[j];
    }
    forall i, j | 0 <= i < j < |b| ensures b[i] != b[j] {
      assert (a + b)[|a| + i] == b[i] && (a + b)[|a| + j] == b[j];
    }
    forall i, j | 0 <= i < |a| && 0 <= j < |b| ensures a[i] != b[j] {
      assert (a + b)[i] == a[i] && (a + b)[|a| + j] == b[j];
    }
  }

  /** A call that answers its chunk in full resolves exactly the chunk's
      ids. */
  lemma AnsweredStep<V>(ko: set<string>, result: map<string, V>, errs: map<int, string>, chunk: seq<string>,
                        out: Result<map<Value, V>>, truthy: V -> bool)
    requires Answers(out, chunk, truthy) && Elems(chunk) <= ko
    ensures var n := ChunkStep(ko, result, errs, out, truthy);
      n.Ok? && n.value.0 == ko - Elems(chunk) && n.value.1.Keys == result.Keys + Elems(chunk) && n.value.2 == errs
  {
    var f := Truthful(out.value, truthy);
    assert forall k :: k in f ==> k.VStr? && k.s in ko;
    assert forall x :: x in chunk ==> VStr(x) in f;
    var ko1 := set s | s in ko && VStr(s) !in f;
    assert ko1 == ko - Elems(chunk);
    var add := map s | s in ko && VStr(s) in f :: f[VStr(s)];
    assert add.Keys == Elems(chunk);
  }

  /** When every call answers its chunk in full, a round resolves each id
      its chunks list. */
  lemma {:induction false} SweepResolves<V>(start: Pass<V>, chunks: seq<seq<string>>, n: nat, count: nat,
                                            fetch: (nat, seq<string>) -> Result<map<Value, V>>, truthy: V -> bool)
    requires n <= |chunks| && start.err.None?
    requires Elems(Flatten(chunks[..n])) <= start.ko && Distinct(Flatten(chunks[..n]))
    requires forall j :: 0 <= j < |chunks| ==> chunks[j] != []
    requires AlwaysAnswers(fetch, truthy)
    ensures var t := Sweep(start, chunks, n, count, fetch, truthy);
      && t.err == None && t.ko == start.ko - Elems(Flatten(chunks[..n]))
      && t.result.Keys == start.result.Keys + Elems(Flatten(chunks[..n]))
    decreases n
  {
    if n > 0 {
      var chunk := chunks[n - 1];
      FlattenPrefix(chunks, n);
      DistinctSplit(Flatten(chunks[..n - 1]), chunk);
      SweepResolves(start, chunks, n - 1, count, fetch, truthy);
      var p := Sweep(start, chunks, n - 1, count, fetch, truthy);
      var out := fetch(count + n - 1, chunk);
      assert Answers(out, chunk, truthy);
      StepResolves(p, chunk, out, truthy);
      assert Sweep(start, chunks, n, count, fetch, truthy) == Step(p, chunk, out, truthy);
    } else {
      assert chunks[..0] == [];
    }
  }

  /** A call that answers its chunk in full resolves the chunk's ids. */
  lemma StepResolves<V>(p: Pass<V>, chunk: seq<string>, out: Result<map<Value, V>>, truthy: V -> bool)
    requires p.err.None? && Answers(out, chunk, truthy) && Elems(chunk) <= p.ko
    ensures var t := Step(p, chunk, out, truthy);
      t.err == None && t.ko == p.ko - Elems(chunk) && t.result.Keys == p.result.Keys + Elems(chunk)
  {
    AnsweredStep(p.ko, p.result, p.errs, chunk, out, truthy);
  }

  /** When every call answers its chunk in full, a round over
      `iter_chunk(size, list(ko))` leaves nothing pending. */
  lemma RoundResolves<V>(size: int, start: Pass<V>, chunks: seq<seq<string>>, count: nat,
                         fetch: (nat, seq<string>) -> Result<map<Value, V>>, truthy: V -> bool)
    requires start.err.None? && ChunksOf(size, start.ko, chunks) && AlwaysAnswers(fetch, truthy)
    ensures var t := Sweep(start, chunks, |chunks|, count, fetch, truthy);
      t.err == None && t.ko == {} && t.result.Keys == start.result.Keys + start.ko
  {
    assert chunks[..|chunks|] == chunks;
    SweepResolves(start, chunks, |chunks|, count, fetch, truthy);
  }

  /** What a round keeps: the partition of the requested ids, truthy
      values only, well-formed events, `error_query` as the shortest
      recorded failures, and no escaping `WikiError`. */
  predicate Sound<V>(all: set<string>, p: Pass<V>, truthy: V -> bool) {
    && Partition(all, p.ko, p.result) && (forall k :: k in p.result ==> truthy(p.result[k]))
    && WellFormed(p.events, all)
    && p.errs == Shortest(p.failures) && (forall i :: 0 <= i < |p.failures| ==> p.failures[i].0 != 429)
    && (p.err.Some? ==> !p.err.value.WikiError?)
  }

  /** A round keeps `Sound`, only resolves pending ids and pauses only
      after a 429. */
  lemma {:induction false} SweepKeeps<V>(all: set<string>, start: Pass<V>, chunks: seq<seq<string>>, n: nat, count: nat,
                                         fetch: (nat, seq<string>) -> Result<map<Value, V>>, truthy: V -> bool)
    requires n <= |chunks| && Sound(all, start, truthy) && start.err.None?
    requires forall j :: 0 <= j < |chunks| ==> ChunkIn(chunks[j], all)
    ensures Kept(all, start, Sweep(start, chunks, n, count, fetch, truthy), truthy)
    decreases n
  {
    if n > 0 {
      SweepKeeps(all, start, chunks, n - 1, count, fetch, truthy);
      var p := Sweep(start, chunks, n - 1, count, fetch, truthy);
      var chunk := chunks[n - 1];
      var out := fetch(count + n - 1, chunk);
      assert ChunkIn(chunk, all);
      SweepKeepsStep(all, start, p, chunk, out, truthy);
      assert Sweep(start, chunks, n, count, fetch, truthy) == if p.err.Some? then p else Step(p, chunk, out, truthy);
    }
  }

  /** `t` is `Sound`, has only shrunk `ko` and has added no pause since `start`. */
  predicate Kept<V>(all: set<string>, start: Pass<V>, t: Pass<V>, truthy: V -> bool) {
    Sound(all, t, truthy) && t.ko <= start.ko && Naps(t.events) == Naps(start.events)
  }

  /** A non-empty chunk of requested ids. */
  predicate ChunkIn(chunk: seq<string>, all: set<string>) {
    chunk != [] && forall x :: x in chunk ==> x in all
  }

  lemma SweepKeepsStep<V>(all: set<string>, start: Pass<V>, p: Pass<V>, chunk: seq<string>,
                          out: Result<map<Value, V>>, truthy: V -> bool)
    requires Kept(all, start, p, truthy) && ChunkIn(chunk, all)
    ensures Kept(all, start, if p.err.Some? then p else Step(p, chunk, out, truthy), truthy)
  {
    if p.err.None? {
      StepKeeps(all, p, chunk, out, truthy);
    }
  }

  /** One chunk keeps `Sound`. */
  lemma StepKeeps<V>(all: set<string>, p: Pass<V>, chunk: seq<string>, out: Result<map<Value, V>>, truthy: V -> bool)
    requires Sound(all, p, truthy) && p.err.None? && chunk != [] && forall x :: x in chunk ==> x in all
    ensures var t := Step(p, chunk, out, truthy);
      Sound(all, t, truthy) && t.ko <= p.ko && Naps(t.events) == Naps(p.events)
  {
    ChunkStepKeeps(all, p.ko, p.result, p.errs, out, truthy);
    ChunkEventsKeep(p.events, chunk, out, all);
    FailuresKeep(p.errs, p.failures, out);
  }

  /** A call's events keep the events well formed and add no pause between
      rounds. */
  lemma ChunkEventsKeep<V>(events: seq<Event>, chunk: seq<string>, out: Result<map<Value, V>>, all: set<string>)
    requires WellFormed(events, all) && chunk != [] && forall x :: x in chunk ==> x in all
    ensures WellFormed(events + ChunkEvents(chunk, out), all)
    ensures Naps(events + ChunkEvents(chunk, out)) == Naps(events)
  {
    assert EventOk(Call(chunk), all);
    NapsAppend(events, Call(chunk));
    var called := events + [Call(chunk)];
    if out.Err? && out.error.WikiError? && out.error.httpCode == Some(429) {
      NapsAppend(called, Sleep(60));
      assert events + ChunkEvents(chunk, out) == called + [Sleep(60)];
    } else {
      assert events + ChunkEvents(chunk, out) == called;
    }
  }

  /** A call's failure is recorded by `error_query` as `Record` says. */
  lemma FailuresKeep<V>(errs: map<int, string>, failures: seq<(int, string)>, out: Result<map<Value, V>>)
    requires errs == Shortest(failures) && forall i :: 0 <= i < |failures| ==> failures[i].0 != 429
    ensures var fs := failures + ChunkFailures(out);
      && (forall i :: 0 <= i < |fs| ==> fs[i].0 != 429)
      && Shortest(fs) == if out.Err? && out.error.WikiError? then Record(errs, out.error) else errs
  {
    var fs := failures + ChunkFailures(out);
    if out.Err? && out.error.WikiError? && out.error.httpCode.Some? && out.error.httpCode.value != 429 {
      var c, q := out.error.httpCode.value, out.error.query;
      assert fs == failures + [(c, q)];
      ShortestAppend(failures, c, q);
      assert Record(errs, out.error) == Keep(errs, c, q);
      forall i | 0 <= i < |fs| ensures fs[i].0 != 429 {
        if i < |failures| {
          assert fs[i] == failures[i];
        }
      }
    } else {
      assert ChunkFailures(out) == [];
      assert fs == failures;
    }
  }

  /** One pass of the round's loop body: the query for `chunk` answered
      `out`. */
  method RunChunk<V>(all: set<string>, ko0: set<string>, result0: map<string, V>, chunk: seq<string>,
                     out: Result<map<Value, V>>, truthy: V -> bool, events0: seq<Event>,
                     errs0: map<int, string>, failures0: seq<(int, string)>)
    returns (err: Option<Exc>, ko: set<string>, result: map<string, V>, events: seq<Event>,
             errs: map<int, string>, failures: seq<(int, string)>)
    requires Partition(all, ko0, result0) && forall k :: k in result0 ==> truthy(result0[k])
    requires chunk != [] && forall x :: x in chunk ==> x in all
    requires WellFormed(events0, all)
    requires errs0 == Shortest(failures0) && forall i :: 0 <= i < |failures0| ==> failures0[i].0 != 429
    ensures Pass(ko, result, errs, events, failures, err)
      == Step(Pass(ko0, result0, errs0, events0, failures0, None), chunk, out, truthy)
    ensures ko <= ko0
    ensures Partition(all, ko, result) && forall k :: k in result ==> truthy(result[k])
    ensures WellFormed(events, all) && Naps(events) == Naps(events0)
    ensures errs == Shortest(failures) && forall i :: 0 <= i < |failures| ==> failures[i].0 != 429
    ensures err.Some? ==> !err.value.WikiError?
  {
    ko, result, errs := ko0, result0, errs0;
    ChunkEventsKeep(events0, chunk, out, all);
    events := events0 + ChunkEvents(chunk, out);
    FailuresKeep(errs0, failures0, out);
    failures := failures0 + ChunkFailures(out);
    ChunkStepKeeps(all, ko, result, errs, out, truthy);
    var next := ChunkStep(ko, result, errs, out, truthy);
    if next.Err? {
      err := Some(next.error);
      return;
    }
    err := None;
    ko, result, errs := next.value.0, next.value.1, next.value.2;
  }

  /** One round of `retry_fetch`: every chunk is fetched in turn, starting
      with call number `count0`; `error_query` starts empty.  `err` is the
      exception that escapes, if one does. */
  method RunRound<V>(all: set<string>, ko0: set<string>, result0: map<string, V>, chunks: seq<seq<string>>,
                     count0: nat, fetch: (nat, seq<string>) -> Result<map<Value, V>>, truthy: V -> bool,
                     events0: seq<Event>)
    returns (err: Option<Exc>, ko: set<string>, result: map<string, V>, events: seq<Event>,
             errs: map<int, string>, failures: seq<(int, string)>, count: nat)
    requires Partition(all, ko0, result0) && forall k :: k in result0 ==> truthy(result0[k])
    requires forall j, x :: 0 <= j < |chunks| && x in chunks[j] ==> x in ko0
    requires forall j :: 0 <= j < |chunks| ==> chunks[j] != []
    requires WellFormed(events0, all)
    ensures Pass(ko, result, errs, events, failures, err)
      == Sweep(Pass(ko0, result0, map[], events0, [], None), chunks, |chunks|, count0, fetch, truthy)
    ensures err.None? ==> count == count0 + |chunks|
    ensures ko <= ko0
    ensures Partition(all, ko, result) && forall k :: k in result ==> truthy(result[k])
    ensures WellFormed(events, all) && Naps(events) == Naps(events0)
    ensures errs == Shortest(failures) && forall i :: 0 <= i < |failures| ==> failures[i].0 != 429
    ensures err.Some? ==> !err.value.WikiError?
  {
    err, ko, result, events, errs, failures, count := None, ko0, result0, events0, map[], [], count0;
    ghost var start := Pass(ko0, result0, map[], events0, [], None);
    for j := 0 to |chunks|
      invariant count == count0 + j && err == None
      invariant Sweep(start, chunks, j, count0, fetch, truthy) == Pass(ko, result, errs, events, failures, None)
      invariant Kept(all, start, Pass(ko, result, errs, events, failures, None), truthy)
    {
      var out := fetch(count0 + j, chunks[j]);
      SweepNext(start, chunks, j, count0, fetch, truthy, Pass(ko, result, errs, events, failures, None), out);
      ghost var next := Step(Pass(ko, result, errs, events, failures, None), chunks[j], out, truthy);
      var stop;
      stop, ko, result, events, errs, failures := RunChunk(all, ko, result, chunks[j], out,
                                                           truthy, events, errs, failures);
      count := count + 1;
      if stop.Some? {
        err := stop;
        SweepStops(start, chunks, j + 1, |chunks|, count0, fetch, truthy);
        return;
      }
      assert Pass(ko, result, errs, events, failures, None) == next;
    }
  }

  /** One pass of `retry_fetch`'s `while` loop (core/wiki.py:67-93): the
      pending ids in chunks of `size`, each queried in turn. */
  method PlayRound<V>(all: set<string>, ko0: set<string>, result0: map<string, V>, size: int, count0: nat,
                      fetch: (nat, seq<string>) -> Result<map<Value, V>>, truthy: V -> bool,
                      events0: seq<Event>)
    returns (err: Option<Exc>, ko: set<string>, result: map<string, V>, events: seq<Event>,
             errs: map<int, string>, failures: seq<(int, string)>, count: nat, chunks: seq<seq<string>>)
    requires Partition(all, ko0, result0) && forall k :: k in result0 ==> truthy(result0[k])
    requires WellFormed(events0, all)
    ensures ChunksOf(size, ko0, chunks)
    ensures Pass(ko, result, errs, events, failures, err)
      == Sweep(Pass(ko0, result0, map[], events0, [], None), chunks, |chunks|, count0, fetch, truthy)
    ensures err.None? ==> count == count0 + |chunks|
    ensures ko <= ko0
    ensures Partition(all, ko, result) && forall k :: k in result ==> truthy(result[k])
    ensures WellFormed(events, all) && Naps(events) == Naps(events0)
    ensures errs == Shortest(failures) && forall i :: 0 <= i < |failures| ==> failures[i].0 != 429
    ensures err.Some? ==> !err.value.WikiError?
  {
    chunks := Chunks(size, ko0);
    var e, k, res, evs, er, fs, c := RunRound(all, ko0, result0, chunks, count0, fetch, truthy, events0);
    err, ko, result, events, count := e, k, res, evs, c;
    errs, failures := er, fs;
  }

  /** Each round after the first follows the one before and starts in
      time. */
  predicate Scheduled(rounds: seq<Round>, clock: nat -> real, until: real) {
    forall t :: 1 <= t < |rounds| ==> Later(rounds[t - 1], rounds[t]) && clock(t) < until
  }

  lemma ScheduledExtend(rounds: seq<Round>, next: Round, clock: nat -> real, until: real)
    requires Scheduled(rounds, clock, until)
    requires rounds != [] ==> Later(rounds[|rounds| - 1], next) && clock(|rounds|) < until
    ensures Scheduled(rounds + [next], clock, until)
  {
    var rs := rounds + [next];
    forall t | 1 <= t < |rs| ensures Later(rs[t - 1], rs[t]) && clock(t) < until {
      if t < |rounds| {
        assert rs[t - 1] == rounds[t - 1] && rs[t] == rounds[t];
      }
    }
  }

  /** What holds between the rounds of `retry_fetch` after `|rounds|` of
      them, the current chunk size being `cur`. */
  ghost predicate Progress<V>(all: set<string>, chunkSize: int, clock: nat -> real, until: real,
                              rounds: seq<Round>, cur: int, ko: set<string>, result: map<string, V>,
                              fetch: (nat, seq<string>) -> Result<map<Value, V>>, truthy: V -> bool,
                              events: seq<Event>, errs: map<int, string>, failures: seq<(int, string)>)
  {
    && |rounds| <= 3
    && (rounds == [] ==> ko == all && events == [] && cur == chunkSize)
    && (rounds != [] ==> rounds[0] == Round(chunkSize, all) && cur == rounds[|rounds| - 1].size
                         && ko <= rounds[|rounds| - 1].pending)
    && Scheduled(rounds, clock, until)
    && Partition(all, ko, result) && (forall k :: k in result ==> truthy(result[k]))
    && Sourced(result, fetch)
    && WellFormed(events, all)
    && Naps(events) == (if rounds == [] then 0 else |rounds| - 1)
    && errs == Shortest(failures) && (forall i :: 0 <= i < |failures| ==> failures[i].0 != 429)
  }

  /** A round that keeps `Sound` and only adds values its calls answered
      carries `Progress` over to the next round. */
  lemma RoundProgress<V>(all: set<string>, chunkSize: int, clock: nat -> real, until: real,
                         rounds0: seq<Round>, cur0: int, ko0: set<string>, result0: map<string, V>,
                         fetch: (nat, seq<string>) -> Result<map<Value, V>>, truthy: V -> bool,
                         events0: seq<Event>, errs0: map<int, string>, failures0: seq<(int, string)>,
                         cur: int, t: Pass<V>)
    requires Progress(all, chunkSize, clock, until, rounds0, cur0, ko0, result0, fetch, truthy, events0, errs0, failures0)
    requires ko0 != {} && (rounds0 == [] || (clock(|rounds0|) < until && |rounds0| < 3))
    requires cur == if rounds0 == [] then cur0 else Shrink(cur0, |ko0|)
    requires Sound(all, t, truthy) && t.ko <= ko0 && Sourced(t.result, fetch)
    requires Naps(t.events) == Naps(events0) + (if rounds0 == [] then 0 else 1)
    ensures Progress(all, chunkSize, clock, until, rounds0 + [Round(cur, ko0)], cur, t.ko, t.result, fetch, truthy,
                     t.events, t.errs, t.failures)
  {
    var rounds := rounds0 + [Round(cur, ko0)];
    ScheduledExtend(rounds0, Round(cur, ko0), clock, until);
    assert rounds[0] == Round(chunkSize, all) && rounds[|rounds| - 1] == Round(cur, ko0);
  }

  /** The number of calls the rounds whose chunks `plan` lists make. */
  function CallCount(plan: seq<seq<seq<string>>>): nat
    decreases |plan|
  {
    if plan == [] then 0 else CallCount(plan[..|plan| - 1]) + |plan[|plan| - 1]|
  }

  /** The reference run of `retry_fetch`: the rounds whose chunks `plan`
      lists, run in turn from nothing resolved, each round but the first
      after a five-second pause, each starting with an empty
      `error_query`; an escaping exception ends the run. */
  function Replay<V>(all: set<string>, plan: seq<seq<seq<string>>>,
                     fetch: (nat, seq<string>) -> Result<map<Value, V>>, truthy: V -> bool): Pass<V>
    decreases |plan|
  {
    if plan == [] then Pass(all, map[], map[], [], [], None)
    else
      var p := Replay(all, plan[..|plan| - 1], fetch, truthy);
      var chunks := plan[|plan| - 1];
      if p.err.Some? then p
      else Sweep(Pass(p.ko, p.result, map[], p.events + (if |plan| == 1 then [] else [Sleep(5)]), [], None),
                 chunks, |chunks|, CallCount(plan[..|plan| - 1]), fetch, truthy)
  }

  /** One round more. */
  lemma ReplayNext<V>(all: set<string>, plan: seq<seq<seq<string>>>, chunks: seq<seq<string>>,
                      fetch: (nat, seq<string>) -> Result<map<Value, V>>, truthy: V -> bool)
    requires Replay(all, plan, fetch, truthy).err.None?
    ensures var p := Replay(all, plan, fetch, truthy);
      Replay(all, plan + [chunks], fetch, truthy)
        == Sweep(Pass(p.ko, p.result, map[], p.events + (if plan == [] then [] else [Sleep(5)]), [], None),
                 chunks, |chunks|, CallCount(plan), fetch, truthy)
    ensures CallCount(plan + [chunks]) == CallCount(plan) + |chunks|
  {
    assert (plan + [chunks])[..|plan|] == plan;
  }

  /** The outcome of a run: the exception that escaped, or the result. */
  function Answer<V>(p: Pass<V>): (r: Result<map<string, V>>)
    ensures r.Ok? <==> p.err.None?
  {
    if p.err.Some? then Err(p.err.value) else Ok(p.result)
  }

  /** Round `t` ran the chunks `plan[t]`, a chunking of the ids the rounds
      before it left unresolved. */
  ghost predicate Planned<V>(all: set<string>, rounds: seq<Round>, plan: seq<seq<seq<string>>>,
                             fetch: (nat, seq<string>) -> Result<map<Value, V>>, truthy: V -> bool)
  {
    && |plan| == |rounds|
    && forall t :: 0 <= t < |rounds| ==>
         && ChunksOf(rounds[t].size, rounds[t].pending, plan[t])
         && Replay(all, plan[..t], fetch, truthy).err.None?
         && rounds[t].pending == Replay(all, plan[..t], fetch, truthy).ko
  }

  lemma PlannedExtend<V>(all: set<string>, rounds: seq<Round>, plan: seq<seq<seq<string>>>, next: Round,
                         chunks: seq<seq<string>>, fetch: (nat, seq<string>) -> Result<map<Value, V>>, truthy: V -> bool)
    requires Planned(all, rounds, plan, fetch, truthy)
    requires Replay(all, plan, fetch, truthy).err.None? && next.pending == Replay(all, plan, fetch, truthy).ko
    requires ChunksOf(next.size, next.pending, chunks)
    ensures Planned(all, rounds + [next], plan + [chunks], fetch, truthy)
  {
    var rs, ps := rounds + [next], plan + [chunks];
    forall t | 0 <= t < |rs|
      ensures ChunksOf(rs[t].size, rs[t].pending, ps[t])
      ensures Replay(all, ps[..t], fetch, truthy).err.None? && rs[t].pending == Replay(all, ps[..t], fetch, truthy).ko
    {
      assert ps[..t] == if t < |plan| then plan[..t] else plan;
    }
  }

  /** The loop's state `p` after the rounds `rounds` is the reference run
      of their chunks `plan`, having made `count` calls. */
  ghost predicate Traced<V>(all: set<string>, rounds: seq<Round>, plan: seq<seq<seq<string>>>,
                            fetch: (nat, seq<string>) -> Result<map<Value, V>>, truthy: V -> bool, p: Pass<V>, count: nat)
  {
    && Planned(all, rounds, plan, fetch, truthy)
    && Replay(all, plan, fetch, truthy) == p
    && (p.err.None? ==> count == CallCount(plan))
  }

  /** A round run on a chunking of the pending ids extends the trace. */
  lemma TracedNext<V>(all: set<string>, rounds: seq<Round>, plan: seq<seq<seq<string>>>,
                      fetch: (nat, seq<string>) -> Result<map<Value, V>>, truthy: V -> bool, p: Pass<V>, count0: nat,
                      next: Round, chunks: seq<seq<string>>, t: Pass<V>, count: nat)
    requires Traced(all, rounds, plan, fetch, truthy, p, count0) && p.err.None?
    requires next.pending == p.ko && ChunksOf(next.size, next.pending, chunks)
    requires t == Sweep(Pass(p.ko, p.result, map[], p.events + (if rounds == [] then [] else [Sleep(5)]), [], None),
                        chunks, |chunks|, count0, fetch, truthy)
    requires t.err.None? ==> count == count0 + |chunks|
    ensures Traced(all, rounds + [next], plan + [chunks], fetch, truthy, t, count)
  {
    ReplayNext(all, plan, chunks, fetch, truthy);
    PlannedExtend(all, rounds, plan, next, chunks, fetch, truthy);
  }

  /** What `retry_fetch` ran: between one and three rounds, each after the
      first shrinking the chunks and starting before the deadline, round
      `t` chunking the ids left after the rounds before it; the run stops
      on an exception, when nothing is pending, after the third round or
      once the time is up. */
  ghost predicate Retried<V>(all: set<string>, chunkSize: int, clock: nat -> real, rounds: seq<Round>,
                             plan: seq<seq<seq<string>>>, fetch: (nat, seq<string>) -> Result<map<Value, V>>,
                             truthy: V -> bool)
  {
    && 1 <= |rounds| <= 3 && rounds[0] == Round(chunkSize, all)
    && Scheduled(rounds, clock, clock(0) + 300.0)
    && Planned(all, rounds, plan, fetch, truthy)
    && var fin := Replay(all, plan, fetch, truthy);
       fin.err.Some? || fin.ko == {} || |rounds| == 3 || clock(|rounds|) >= clock(0) + 300.0
  }

  /** One pass of `retry_fetch`'s loop: after the first round shrink the
      chunks and pause five seconds, then run the round. */
  method NextRound<V>(all: set<string>, chunkSize: int, clock: nat -> real, until: real,
                      rounds0: seq<Round>, cur0: int, ko0: set<string>, result0: map<string, V>, count0: nat,
                      fetch: (nat, seq<string>) -> Result<map<Value, V>>, truthy: V -> bool,
                      events0: seq<Event>, errs0: map<int, string>, failures0: seq<(int, string)>)
    returns (err: Option<Exc>, rounds: seq<Round>, cur: int, ko: set<string>, result: map<string, V>,
             count: nat, events: seq<Event>, errs: map<int, string>, failures: seq<(int, string)>,
             chunks: seq<seq<string>>)
    requires Progress(all, chunkSize, clock, until, rounds0, cur0, ko0, result0, fetch, truthy, events0, errs0, failures0)
    requires ko0 != {} && (rounds0 == [] || (clock(|rounds0|) < until && |rounds0| < 3))
    ensures cur == if rounds0 == [] then cur0 else Shrink(cur0, |ko0|)
    ensures rounds == rounds0 + [Round(cur, ko0)]
    ensures ChunksOf(cur, ko0, chunks)
    ensures Pass(ko, result, errs, events, failures, err)
      == Sweep(Pass(ko0, result0, map[], events0 + (if rounds0 == [] then [] else [Sleep(5)]), [], None),
               chunks, |chunks|, count0, fetch, truthy)
    ensures err.None? ==> count == count0 + |chunks|
    ensures AlwaysAnswers(fetch, truthy) ==> err.None? && ko == {}
    ensures Progress(all, chunkSize, clock, until, rounds, cur, ko, result, fetch, truthy, events, errs, failures)
    ensures err.Some? ==> !err.value.WikiError?
  {
    cur := if rounds0 == [] then cur0 else Shrink(cur0, |ko0|);
    var pause: seq<Event> := if rounds0 == [] then [] else [Sleep(5)];
    if rounds0 != [] {
      NapsAppend(events0, Sleep(5));
    } else {
      assert events0 + pause == events0;
    }
    var events1 := events0 + pause;
    rounds := rounds0 + [Round(cur, ko0)];
    err, ko, result, events, errs, failures, count, chunks :=
      PlayRound(all, ko0, result0, cur, count0, fetch, truthy, events1);
    ghost var start := Pass(ko0, result0, map[], events1, [], None);
    SweepSourced(start, chunks, |chunks|, count0, fetch, truthy);
    RoundProgress(all, chunkSize, clock, until, rounds0, cur0, ko0, result0, fetch, truthy, events0, errs0, failures0,
                  cur, Pass(ko, result, errs, events, failures, err));
    if AlwaysAnswers(fetch, truthy) {
      RoundResolves(cur, start, chunks, count0, fetch, truthy);
    }
  }

  /** `retry_fetch(chunk_size)(func)(*args)` with `fetch(n, chunk)` the
      outcome of the `n`-th call of `func` and `clock(t)` the time read
      before deciding on round `t + 1` (`clock(0)` at the start). */
  method RetryFetch<V>(args: seq<string>, chunkSize: int, fetch: (nat, seq<string>) -> Result<map<Value, V>>,
                       truthy: V -> bool, clock: nat -> real)
    returns (r: Result<map<string, V>>, rounds: seq<Round>, events: seq<Event>, unresolved: set<string>,
             errs: map<int, string>, failures: seq<(int, string)>, plan: seq<seq<seq<string>>>)
    ensures args == [] ==> r == Ok(map[]) && rounds == [] && events == [] && plan == []
    ensures args != [] ==> Retried(Elems(args), chunkSize, clock, rounds, plan, fetch, truthy)
    ensures args != [] ==>
      var fin := Replay(Elems(args), plan, fetch, truthy);
      && r == Answer(fin) && unresolved == fin.ko && events == fin.events
      && errs == fin.errs && failures == fin.failures
    ensures args != [] ==> 1 <= |rounds| <= 3 && rounds[0] == Round(chunkSize, Elems(args))
    ensures forall t :: 1 <= t < |rounds| ==> Later(rounds[t - 1], rounds[t]) && clock(t) < clock(0) + 300.0
    ensures WellFormed(events, Elems(args))
    ensures args != [] ==> Naps(events) == |rounds| - 1
    ensures errs == Shortest(failures) && forall i :: 0 <= i < |failures| ==> failures[i].0 != 429
    ensures r.Err? ==> !r.error.WikiError?
    ensures r.Ok? ==> Partition(Elems(args), unresolved, r.value) && forall k :: k in r.value ==> truthy(r.value[k])
    ensures r.Ok? ==> Sourced(r.value, fetch)
    ensures r.Ok? && args != [] ==>
      && unresolved <= rounds[|rounds| - 1].pending
      && (unresolved == {} || |rounds| == 3 || clock(|rounds|) >= clock(0) + 300.0)
    ensures AlwaysAnswers(fetch, truthy) ==> r.Ok? && unresolved == {} && |rounds| <= 1
  {
    rounds, events, errs, failures, plan := [], [], map[], [], [];
    if args == [] {
      return Ok(map[]), rounds, events, {}, errs, failures, plan;
    }
    var all := Elems(args);
    assert args[0] in all;
    var cur, p, count;
    rounds, cur, p, plan, count := RetryLoop(all, chunkSize, fetch, truthy, clock);
    RetryEnds(args, chunkSize, clock, rounds, cur, p.ko, p.result, p.err, fetch, truthy, p.events, p.errs, p.failures);
    RetriedEnds(args, chunkSize, clock, rounds, plan, fetch, truthy, p, count);
    events, errs, failures, unresolved := p.events, p.errs, p.failures, p.ko;
    r := if p.err.Some? then Err(p.err.value) else Ok(p.result);
  }

  /** What holds between the rounds of `retry_fetch`'s loop: `Progress`,
      the trace of the rounds, and what an escaped exception and answers
      in full imply. */
  ghost predicate Looping<V>(all: set<string>, chunkSize: int, clock: nat -> real, rounds: seq<Round>, cur: int,
                             fetch: (nat, seq<string>) -> Result<map<Value, V>>, truthy: V -> bool,
                             p: Pass<V>, plan: seq<seq<seq<string>>>, count: nat)
  {
    && Progress(all, chunkSize, clock, clock(0) + 300.0, rounds, cur, p.ko, p.result, fetch, truthy, p.events, p.errs, p.failures)
    && (p.err.Some? ==> rounds != [] && !p.err.value.WikiError?)
    && (AlwaysAnswers(fetch, truthy) ==> p.err.None? && (rounds == [] || (p.ko == {} && |rounds| == 1)))
    && Traced(all, rounds, plan, fetch, truthy, p, count)
  }

  /** The loop's body: one more round, traced. */
  method LoopStep<V>(all: set<string>, chunkSize: int, clock: nat -> real, rounds0: seq<Round>, cur0: int,
                     fetch: (nat, seq<string>) -> Result<map<Value, V>>, truthy: V -> bool,
                     p0: Pass<V>, plan0: seq<seq<seq<string>>>, count0: nat)
    returns (rounds: seq<Round>, cur: int, p: Pass<V>, plan: seq<seq<seq<string>>>, count: nat)
    requires Looping(all, chunkSize, clock, rounds0, cur0, fetch, truthy, p0, plan0, count0)
    requires p0.err.None? && p0.ko != {} && (rounds0 == [] || (clock(|rounds0|) < clock(0) + 300.0 && |rounds0| < 3))
    ensures |rounds| == |rounds0| + 1
    ensures Looping(all, chunkSize, clock, rounds, cur, fetch, truthy, p, plan, count)
  {
    var err, ko, result, events, errs, failures, chunks;
    err, rounds, cur, ko, result, count, events, errs, failures, chunks :=
      NextRound(all, chunkSize, clock, clock(0) + 300.0, rounds0, cur0, p0.ko, p0.result, count0, fetch, truthy,
                p0.events, p0.errs, p0.failures);
    p := Pass(ko, result, errs, events, failures, err);
    TracedNext(all, rounds0, plan0, fetch, truthy, p0, count0, Round(cur, p0.ko), chunks, p, count);
    plan := plan0 + [chunks];
  }

  /** `retry_fetch`'s `while` loop over the requested ids `all`. */
  method RetryLoop<V>(all: set<string>, chunkSize: int, fetch: (nat, seq<string>) -> Result<map<Value, V>>,
                      truthy: V -> bool, clock: nat -> real)
    returns (rounds: seq<Round>, cur: int, p: Pass<V>, plan: seq<seq<seq<string>>>, count: nat)
    requires all != {}
    ensures rounds != []
    ensures Looping(all, chunkSize, clock, rounds, cur, fetch, truthy, p, plan, count)
    ensures !(p.err.None? && p.ko != {} && clock(|rounds|) < clock(0) + 300.0 && |rounds| < 3)
  {
    rounds, cur, p, plan, count := [], chunkSize, Pass(all, map[], map[], [], [], None), [], 0;
    while p.err.None? && p.ko != {} && (|rounds| == 0 || (clock(|rounds|) < clock(0) + 300.0 && |rounds| < 3))
      invariant Looping(all, chunkSize, clock, rounds, cur, fetch, truthy, p, plan, count)
      invariant p.err.None? ==> p.ko != {} || rounds != []
      decreases 3 - |rounds|
    {
      rounds, cur, p, plan, count := LoopStep(all, chunkSize, clock, rounds, cur, fetch, truthy, p, plan, count);
    }
  }

  /** Where the retry loop leaves `RetryFetch`: its contract follows from
      `Progress` and the loop's exit condition. */
  lemma RetryEnds<V>(args: seq<string>, chunkSize: int, clock: nat -> real, rounds: seq<Round>, cur: int,
                     ko: set<string>, result: map<string, V>, err: Option<Exc>,
                     fetch: (nat, seq<string>) -> Result<map<Value, V>>, truthy: V -> bool,
                     events: seq<Event>, errs: map<int, string>, failures: seq<(int, string)>)
    requires args != [] && rounds != []
    requires Progress(Elems(args), chunkSize, clock, clock(0) + 300.0, rounds, cur, ko, result, fetch, truthy,
                      events, errs, failures)
    requires !(err.None? && ko != {} && clock(|rounds|) < clock(0) + 300.0 && |rounds| < 3)
    requires err.Some? ==> !err.value.WikiError?
    requires AlwaysAnswers(fetch, truthy) ==> err.None? && ko == {} && |rounds| == 1
    ensures 1 <= |rounds| <= 3 && rounds[0] == Round(chunkSize, Elems(args))
    ensures forall t :: 1 <= t < |rounds| ==> Later(rounds[t - 1], rounds[t]) && clock(t) < clock(0) + 300.0
    ensures WellFormed(events, Elems(args)) && Naps(events) == |rounds| - 1
    ensures errs == Shortest(failures) && forall i :: 0 <= i < |failures| ==> failures[i].0 != 429
    ensures err.None? ==> Partition(Elems(args), ko, result) && forall k :: k in result ==> truthy(result[k])
    ensures err.None? ==> Sourced(result, fetch)
    ensures err.None? ==>
      && ko <= rounds[|rounds| - 1].pending
      && (ko == {} || |rounds| == 3 || clock(|rounds|) >= clock(0) + 300.0)
  {
  }

  /** Where the retry loop leaves the trace: the rounds played are the
      ones `retry_fetch` runs. */
  lemma RetriedEnds<V>(args: seq<string>, chunkSize: int, clock: nat -> real, rounds: seq<Round>,
                       plan: seq<seq<seq<string>>>, fetch: (nat, seq<string>) -> Result<map<Value, V>>,
                       truthy: V -> bool, p: Pass<V>, count: nat)
    requires 1 <= |rounds| <= 3 && rounds[0] == Round(chunkSize, Elems(args))
    requires Scheduled(rounds, clock, clock(0) + 300.0)
    requires Traced(Elems(args), rounds, plan, fetch, truthy, p, count)
    requires !(p.err.None? && p.ko != {} && clock(|rounds|) < clock(0) + 300.0 && |rounds| < 3)
    ensures Retried(Elems(args), chunkSize, clock, rounds, plan, fetch, truthy)
  {
  }

  // ------------------------------------------------------------------ query

  /** `query`'s check of a SPARQL answer: a dict whose `results` is a dict
      whose `bindings` is a list of dicts, none with both a truthy `subject`
      and a truthy `object`. */
  predicate WellShaped(data: Value) {
    data.VDict? && DictGet(data.m, "results").VDict?
    && var b := DictGet(DictGet(data.m, "results").m, "bindings");
    b.VList? && forall i :: 0 <= i < |b.items| ==> RowOk(b.items[i])
  }

  predicate RowOk(row: Value) {
    row.VDict? && !(Truthy(DictGet(row.m, "subject")) && Truthy(DictGet(row.m, "object")))
  }

  function Bindings(data: Value): (rows: seq<map<string, Value>>)
    requires WellShaped(data)
    ensures |rows| == |DictGet(DictGet(data.m, "results").m, "bindings").items|
    ensures forall i :: 0 <= i < |rows| ==> VDict(rows[i]) == DictGet(DictGet(data.m, "results").m, "bindings").items[i]
  {
    var b := DictGet(DictGet(data.m, "results").m, "bindings").items;
    seq(|b|, i requires 0 <= i < |b| && RowOk(b[i]) => b[i].m)
  }

  /** `query_sparql`'s wrapping of a transport failure: any exception
      becomes a `WikiError` carrying the HTTP code when there is one. */
  function Wrapped(e: Exc, query: string, describe: Exc -> string): (w: Exc)
    ensures w.WikiError? && w.query == query
    ensures w.httpCode.Some? <==> e.HttpError?
  {
    WikiError(describe(e), query, if e.HttpError? then Some(e.code) else None)
  }

  /** `query` as written: a badly shaped answer calls `WikiError` with two
      of its three arguments, which raises `TypeError`. */
  function QueryAsWritten(answer: Result<Value>, query: string, describe: Exc -> string): (r: Result<seq<map<string, Value>>>)
    ensures answer.Ok? && !WellShaped(answer.value) ==> r == Err(TypeError)
  {
    match answer
    case Err(e) => Err(Wrapped(e, query, describe))
    case Ok(data) => if WellShaped(data) then Ok(Bindings(data)) else Err(TypeError)
  }

  /** `query` with the shape failure raised as the `WikiError` it was meant
      to be, without an HTTP code. */
  function Query(answer: Result<Value>, query: string, describe: Exc -> string, show: Value -> string): (r: Result<seq<map<string, Value>>>)
    ensures r.Ok? <==> answer.Ok? && WellShaped(answer.value)
    ensures r.Ok? ==> r.value == Bindings(answer.value)
    ensures r.Err? ==> r.error.WikiError? && r.error.query == query
    ensures answer.Ok? && !WellShaped(answer.value) ==> r == Err(WikiError(show(answer.value), query, None))
    ensures answer.Err? ==> r == Err(Wrapped(answer.error, query, describe))
  {
    match answer
    case Err(e) => Err(Wrapped(e, query, describe))
    case Ok(data) => if WellShaped(data) then Ok(Bindings(data)) else Err(WikiError(show(data), query, None))
  }

  /** As written, a badly shaped answer aborts the whole `retry_fetch`
      call; corrected, the chunk is retried in the next round like any
      other failed chunk. */
  lemma ShapeErrorAborts<V>(ko: set<string>, result: map<string, V>, errs: map<int, string>,
                            query: string, describe: Exc -> string, show: Value -> string, truthy: V -> bool)
    ensures QueryAsWritten(Ok(VNone), query, describe) == Err(TypeError)
    ensures ChunkStep(ko, result, errs, Err(TypeError), truthy) == Err(TypeError)
    ensures Query(Ok(VNone), query, describe, show).Err?
    ensures ChunkStep(ko, result, errs, Err(Query(Ok(VNone), query, describe, show).error), truthy)
      == Ok((ko, result, errs))
  {
  }

  /** Away from a badly shaped answer, the corrected `query` is the code
      as written, so the two differ only where the finding lies. */
  lemma QueryAgreesAsWritten(answer: Result<Value>, query: string, describe: Exc -> string, show: Value -> string)
    ensures answer.Err? || WellShaped(answer.value) <==>
      Query(answer, query, describe, show) == QueryAsWritten(answer, query, describe)
  {
  }

  // ------------------------------------------------------------ row folding

  /** `row[name]['value']` */
  function KeyOf(row: map<string, Value>, name: string): (r: Result<Value>)
    ensures r.Ok? <==> name in row && row[name].VDict? && "value" in row[name].m
  {
    if name !in row then Err(KeyError)
    else if !row[name].VDict? then Err(TypeError)
    else if "value" !in row[name].m then Err(KeyError)
    else Ok(row[name].m["value"])
  }

  /** `row.get(name, {}).get('value')` */
  function ValOf(row: map<string, Value>, name: string): (r: Result<Value>)
    ensures r.Err? <==> name in row && !row[name].VDict?
    ensures name !in row ==> r == Ok(VNone)
  {
    if name !in row then Ok(VNone)
    else if row[name].VDict? then Ok(DictGet(row[name].m, "value"))
    else Err(AttributeError)
  }

  /** A value of `get_dict` and `get_label_dict`: text, or an all-digit
      text read as an int. */
  datatype Cell = CText(s: string) | CNum(n: nat)

  function StripValue(v: Value): Value {
    if v.VStr? then VStr(Strip(v.s)) else v
  }

  /** `get_dict`'s cleaning: strip, skip `None` and blanks, digits become
      ints; a non-string fails on `.isdigit()`. */
  function DictCell(v: Value): (r: Result<Option<Cell>>)
    ensures r.Ok? && r.value.Some? && r.value.value.CText? ==>
      var t := r.value.value.s; t != [] && t == Strip(t) && !AllDigits(t)
    ensures v.VStr? && IsDecimal(Strip(v.s)) ==> r == Ok(Some(CNum(DigitsValue(Strip(v.s)))))
    ensures r == Ok(None) <==> v == VNone || (v.VStr? && Strip(v.s) == "")
    ensures r.Err? <==> v != VNone && !v.VStr?
  {
    var w := StripValue(v);
    if w == VNone || w == VStr("") then Ok(None)
    else if !w.VStr? then Err(AttributeError)
    else if IsDecimal(w.s) then Ok(Some(CNum(DigitsValue(w.s))))
    else Ok(Some(CText(w.s)))
  }

  /** `get_countries`' cleaning: a truthy value is kept as it is; adding
      an unhashable one to the set raises `TypeError`. */
  function CountryCell(v: Value): (r: Result<Option<Value>>)
    ensures r.Err? <==> Truthy(v) && !Hashable(v)
    ensures r.Err? ==> r.error == TypeError
    ensures r.Ok? ==> (r.value.Some? <==> Truthy(v))
    ensures r.Ok? && r.value.Some? ==> r.value.value == v
  {
    if !Truthy(v) then Ok(None)
    else if !Hashable(v) then Err(TypeError)
    else Ok(Some(v))
  }

  /** `get_wiki_url`'s cleaning: strip, skip `None` and blanks; adding an
      unhashable value to the set raises `TypeError`. */
  function UrlCell(v: Value): (r: Result<Option<Value>>)
    ensures r.Err? <==> !Hashable(v)
    ensures r.Err? ==> r.error == TypeError
    ensures r.Ok? ==> (r.value.None? <==> v == VNone || (v.VStr? && Strip(v.s) == ""))
    ensures r.Ok? && r.value.Some? ==> r.value.value == StripValue(v)
  {
    var w := StripValue(v);
    if w == VNone || w == VStr("") then Ok(None)
    else if !Hashable(w) then Err(TypeError)
    else Ok(Some(w))
  }

  /** One answer row: its key and its cleaned value, or nothing to add.
      `r[k]` hashes the key once the value is known to be kept. */
  function Entry<C>(row: map<string, Value>, kname: string, vname: string, clean: Value -> Result<Option<C>>)
    : (r: Result<Option<(Value, C)>>)
    ensures r.Ok? && r.value.Some? ==> Hashable(r.value.value.0)
    ensures r.Ok? && r.value.Some? ==> KeyOf(row, kname) == Ok(r.value.value.0)
    ensures var k, v := KeyOf(row, kname), ValOf(row, vname);
      k.Ok? && !Hashable(k.value) && v.Ok? && clean(v.value).Ok? && clean(v.value).value.Some? ==> r == Err(TypeError)
  {
    match KeyOf(row, kname)
    case Err(e) => Err(e)
    case Ok(k) => match ValOf(row, vname)
      case Err(e) => Err(e)
      case Ok(v) => match clean(v)
        case Err(e) => Err(e)
        case Ok(None) => Ok(None)
        case Ok(Some(c)) => if Hashable(k) then Ok(Some((k, c))) else Err(TypeError)
  }

  /** Adds `c` to the set of `k` in a `defaultdict(set)`. */
  function AddTo<C>(g: map<Value, set<C>>, k: Value, c: C): map<Value, set<C>> {
    g[k := (if k in g then g[k] else {}) + {c}]
  }

  /** The `defaultdict(set)` the rows fill, the first failing row's error
      escaping. */
  function Grouped<C>(rows: seq<map<string, Value>>, entry: map<string, Value> -> Result<Option<(Value, C)>>): Result<map<Value, set<C>>>
    decreases |rows|
  {
    if rows == [] then Ok(map[])
    else match Grouped(rows[..|rows| - 1], entry)
      case Err(e) => Err(e)
      case Ok(g) => match entry(rows[|rows| - 1])
        case Err(e) => Err(e)
        case Ok(None) => Ok(g)
        case Ok(Some(kc)) => Ok(AddTo(g, kc.0, kc.1))
  }

  /** The fold succeeds exactly when every row does. */
  lemma {:induction false} GroupedOk<C>(rows: seq<map<string, Value>>, entry: map<string, Value> -> Result<Option<(Value, C)>>)
    ensures Grouped(rows, entry).Ok? <==> forall i :: 0 <= i < |rows| ==> entry(rows[i]).Ok?
    decreases |rows|
  {
    if rows != [] {
      var n := |rows| - 1;
      var init := rows[..n];
      GroupedOk(init, entry);
      assert forall i :: 0 <= i < n ==> init[i] == rows[i];
      if Grouped(init, entry).Err? {
        var i :| 0 <= i < n && !entry(init[i]).Ok?;
        assert !entry(rows[i]).Ok?;
      }
    }
  }

  /** Each key's set is non-empty. */
  lemma {:induction false} GroupedNonEmpty<C>(rows: seq<map<string, Value>>, entry: map<string, Value> -> Result<Option<(Value, C)>>)
    ensures Grouped(rows, entry).Ok? ==> forall k :: k in Grouped(rows, entry).value ==> Grouped(rows, entry).value[k] != {}
    decreases |rows|
  {
    if rows != [] {
      GroupedNonEmpty(rows[..|rows| - 1], entry);
    }
  }

  /** Each key's set holds exactly the values of that key's rows. */
  lemma {:induction false} GroupedMembers<C>(rows: seq<map<string, Value>>, entry: map<string, Value> -> Result<Option<(Value, C)>>)
    ensures Grouped(rows, entry).Ok? ==> forall k, c :: (k in Grouped(rows, entry).value && c in Grouped(rows, entry).value[k]) <==>
      exists i :: 0 <= i < |rows| && entry(rows[i]) == Ok(Some((k, c)))
    decreases |rows|
  {
    if rows != [] {
      var n := |rows| - 1;
      var init := rows[..n];
      GroupedMembers(init, entry);
      var u := Grouped(init, entry);
      var t := entry(rows[n]);
      if u.Ok? && t.Ok? {
        var g := Grouped(rows, entry).value;
        forall k, c ensures (k in g && c in g[k]) <==> exists i :: 0 <= i < |rows| && entry(rows[i]) == Ok(Some((k, c))) {
          if k in u.value && c in u.value[k] {
            var i :| 0 <= i < n && entry(init[i]) == Ok(Some((k, c)));
            assert rows[i] == init[i];
          }
          if exists i :: 0 <= i < |rows| && entry(rows[i]) == Ok(Some((k, c))) {
            var i :| 0 <= i < |rows| && entry(rows[i]) == Ok(Some((k, c)));
            if i < n {
              assert rows[i] == init[i];
            }
          }
        }
      }
    }
  }

  /** The row loop of the `get_*` helpers. */
  method Collect<C>(rows: seq<map<string, Value>>, entry: map<string, Value> -> Result<Option<(Value, C)>>)
    returns (r: Result<map<Value, set<C>>>)
    ensures r == Grouped(rows, entry)
  {
    var g: map<Value, set<C>> := map[];
    for i := 0 to |rows|
      invariant Grouped(rows[..i], entry) == Ok(g)
    {
      assert rows[..i + 1][..i] == rows[..i];
      var e := entry(rows[i]);
      match e {
        case Err(err) =>
          assert rows[..i + 1][i] == rows[i];
          GroupedPrefixErr(rows, i + 1, entry);
          return Err(err);
        case Ok(None) =>
        case Ok(Some(kc)) =>
          g := AddTo(g, kc.0, kc.1);
      }
    }
    assert rows[..|rows|] == rows;
    r := Ok(g);
  }

  lemma {:induction false} GroupedPrefixErr<C>(rows: seq<map<string, Value>>, n: nat, entry: map<string, Value> -> Result<Option<(Value, C)>>)
    requires n <= |rows| && Grouped(rows[..n], entry).Err?
    ensures Grouped(rows, entry) == Grouped(rows[..n], entry)
    decreases |rows| - n
  {
    if n < |rows| {
      assert rows[..n + 1][..n] == rows[..n];
      GroupedPrefixErr(rows, n + 1, entry);
    } else {
      assert rows[..n] == rows;
    }
  }

  // -------------------------------------------------------- post-processing

  lemma SingletonUnique<C>(s: set<C>)
    requires |s| == 1
    ensures forall x, y :: x in s && y in s ==> x == y
  {
    forall x, y | x in s && y in s ensures x == y {
      assert |s - {x}| == 0;
      if x != y {
        assert false;
      }
    }
  }

  /** The one element of a one-element set (`v.pop()`, `v[0]`). */
  function Only<C>(s: set<C>): (x: C)
    requires |s| == 1
    ensures s == {x}
  {
    SingletonUnique(s);
    var x :| x in s;
    x
  }

  /** The keys with exactly one value, with that value
      (`get_filmaffinity`, `get_names`, `get_wiki_url`). */
  function Singles<K(!new), C>(d: map<K, set<C>>): (r: map<K, C>)
    ensures forall k :: k in r <==> k in d && |d[k]| == 1
    ensures forall k :: k in r ==> d[k] == {r[k]}
  {
    map k | k in d && |d[k]| == 1 :: Only(d[k])
  }

  predicate CellLt(a: Cell, b: Cell) {
    (a.CText? && b.CText? && StrLt(a.s, b.s)) || (a.CNum? && b.CNum? && a.n < b.n)
  }

  predicate Ascending(xs: seq<Cell>) {
    forall i, j :: 0 <= i < j < |xs| ==> CellLt(xs[i], xs[j])
  }

  predicate HasText(s: set<Cell>) { exists c :: c in s && c.CText? }

  predicate HasNum(s: set<Cell>) { exists c :: c in s && c.CNum? }

  function TextSet(s: set<Cell>): set<string> {
    set c | c in s && c.CText? :: c.s
  }

  function NumSet(s: set<Cell>): set<int> {
    set c | c in s && c.CNum? :: c.n as int
  }

  lemma TextMembers(s: set<Cell>, t: seq<string>, xs: seq<Cell>)
    requires !HasNum(s)
    requires forall x :: x in t <==> x in TextSet(s)
    requires |xs| == |t| && forall i :: 0 <= i < |t| ==> xs[i] == CText(t[i])
    ensures forall c :: c in xs <==> c in s
  {
    forall c ensures c in xs <==> c in s {
      if c in s {
        assert c.CText? && c.s in TextSet(s);
        var i :| 0 <= i < |t| && t[i] == c.s;
        assert xs[i] == c;
      }
      if c in xs {
        var i :| 0 <= i < |xs| && xs[i] == c;
        assert t[i] in t;
        var d :| d in s && d.CText? && d.s == t[i];
        assert d == c;
      }
    }
  }

  lemma NumMembers(s: set<Cell>, t: seq<int>, xs: seq<Cell>)
    requires !HasText(s)
    requires forall x :: x in t <==> x in NumSet(s)
    requires |xs| == |t| && forall i :: 0 <= i < |t| ==> xs[i].CNum? && xs[i].n as int == t[i]
    ensures forall c :: c in xs <==> c in s
  {
    forall c ensures c in xs <==> c in s {
      if c in s {
        assert c.CNum? && c.n as int in NumSet(s);
        var i :| 0 <= i < |t| && t[i] == c.n as int;
        assert xs[i] == c;
      }
      if c in xs {
        var i :| 0 <= i < |xs| && xs[i] == c;
        assert t[i] in t;
        var d :| d in s && d.CNum? && d.n as int == t[i];
        assert d == c;
      }
    }
  }

  /** `sorted(v)` of a set of texts. */
  function SortTexts(s: set<Cell>): (xs: seq<Cell>)
    requires !HasNum(s)
    ensures Ascending(xs) && forall c :: c in xs <==> c in s
  {
    var t := SortedStrings(TextSet(s));
    var xs := seq(|t|, i requires 0 <= i < |t| => CText(t[i]));
    TextMembers(s, t, xs);
    xs
  }

  /** `sorted(v)` of a set of ints. */
  function SortNums(s: set<Cell>): (xs: seq<Cell>)
    requires !HasText(s)
    ensures Ascending(xs) && forall c :: c in xs <==> c in s
  {
    var t := SortedInts(NumSet(s));
    assert forall i :: 0 <= i < |t| ==> t[i] >= 0 by {
      forall i | 0 <= i < |t| ensures t[i] >= 0 {
        assert t[i] in NumSet(s);
      }
    }
    var xs := seq(|t|, i requires 0 <= i < |t| && t[i] >= 0 => CNum(t[i]));
    NumMembers(s, t, xs);
    xs
  }

  /** `sorted(v)`: texts and ints do not compare. */
  function SortCells(s: set<Cell>): (r: Result<seq<Cell>>)
    ensures r.Err? <==> HasText(s) && HasNum(s)
    ensures r.Err? ==> r.error == TypeError
    ensures r.Ok? ==> Ascending(r.value) && forall c :: c in r.value <==> c in s
  {
    if HasText(s) && HasNum(s) then Err(TypeError)
    else if !HasNum(s) then Ok(SortTexts(s))
    else Ok(SortNums(s))
  }

  /** `get_director`: each id's values as a sorted tuple. */
  function Director(d: map<string, set<Cell>>): (r: Result<map<string, seq<Cell>>>)
    ensures r.Err? <==> exists k :: k in d && HasText(d[k]) && HasNum(d[k])
    ensures r.Ok? ==> forall k :: k in r.value <==> k in d && d[k] != {}
    ensures r.Ok? ==> forall k :: k in r.value ==>
      Ascending(r.value[k]) && forall c :: c in r.value[k] <==> c in d[k]
  {
    if exists k :: k in d && HasText(d[k]) && HasNum(d[k]) then Err(TypeError)
    else Ok(map k | k in d && d[k] != {} :: SortCells(d[k]).value)
  }

  /** `get_countries`' join: the sorted codes separated by spaces; a
      non-string code makes `sorted` or `join` raise. */
  function CountryJoin(g: map<Value, set<Value>>): (r: Result<map<Value, string>>)
    ensures r.Ok? <==> forall k, v :: k in g && v in g[k] ==> v.VStr?
    ensures r.Ok? ==> forall k :: k in r.value <==> k in g && g[k] != {}
    ensures r.Ok? ==> forall k :: k in r.value ==>
      r.value[k] == Join(SortedStrings(set v | v in g[k] && v.VStr? :: v.s), " ")
  {
    if forall k, v :: k in g && v in g[k] ==> v.VStr? then
      Ok(map k | k in g && g[k] != {} :: Join(SortedStrings(set v | v in g[k] && v.VStr? :: v.s), " "))
    else Err(TypeError)
  }

  /** The chunk functions: `get_dict` / `get_label_dict`, `get_countries`
      and `get_wiki_url` applied to one SPARQL answer. */
  function DictChunk(answer: Result<Value>, query: string, describe: Exc -> string, show: Value -> string, vfield: string)
    : Result<map<Value, set<Cell>>>
  {
    match Query(answer, query, describe, show)
    case Err(e) => Err(e)
    case Ok(rows) => Grouped(rows, row => Entry(row, "k", vfield, DictCell))
  }

  function CountryChunk(answer: Result<Value>, query: string, describe: Exc -> string, show: Value -> string)
    : Result<map<Value, string>>
  {
    match Query(answer, query, describe, show)
    case Err(e) => Err(e)
    case Ok(rows) => match Grouped(rows, row => Entry(row, "imdb", "alpha3", CountryCell))
      case Err(e) => Err(e)
      case Ok(g) => CountryJoin(g)
  }

  function UrlChunk(answer: Result<Value>, query: string, describe: Exc -> string, show: Value -> string)
    : Result<map<Value, Value>>
  {
    match Query(answer, query, describe, show)
    case Err(e) => Err(e)
    case Ok(rows) => match Grouped(rows, row => Entry(row, "imdb", "article", UrlCell))
      case Err(e) => Err(e)
      case Ok(g) => Ok(Singles(g))
  }

  /** A row's entry carries the value its key and cleaning gave. */
  lemma EntryParts<C>(row: map<string, Value>, kname: string, vname: string, clean: Value -> Result<Option<C>>, k: Value, c: C)
    requires Entry(row, kname, vname, clean) == Ok(Some((k, c)))
    ensures KeyOf(row, kname) == Ok(k) && ValOf(row, vname).Ok? && clean(ValOf(row, vname).value) == Ok(Some(c))
  {
  }

  /** Every value `get_dict` keeps is a cleaned, non-blank cell of a row of
      the answer for that key. */
  lemma {:induction false} DictChunkCells(answer: Result<Value>, query: string, describe: Exc -> string, show: Value -> string,
                                          vfield: string, k: Value, c: Cell)
    requires DictChunk(answer, query, describe, show, vfield).Ok?
    requires k in DictChunk(answer, query, describe, show, vfield).value
    requires c in DictChunk(answer, query, describe, show, vfield).value[k]
    ensures answer.Ok? && WellShaped(answer.value)
    ensures exists i :: (0 <= i < |Bindings(answer.value)| &&
      Entry(Bindings(answer.value)[i], "k", vfield, DictCell) == Ok(Some((k, c))))
    ensures c.CText? ==> c.s != [] && !AllDigits(c.s)
  {
    var rows := Bindings(answer.value);
    var entry := row => Entry(row, "k", vfield, DictCell);
    assert DictChunk(answer, query, describe, show, vfield) == Grouped(rows, entry);
    GroupedMembers(rows, entry);
    var i :| 0 <= i < |rows| && entry(rows[i]) == Ok(Some((k, c)));
    EntryParts(rows[i], "k", vfield, DictCell, k, c);
  }

  predicate NonEmpty(s: set<Cell>) { s != {} }

  predicate NonBlank(s: string) { s != "" }

  /** The call `retry_fetch` wraps in `get_dict`: the `n`-th query, on
      `chunk`, grouped by id. */
  function DictFetch(sparql: (nat, seq<string>) -> Result<Value>, text: seq<string> -> string,
                     describe: Exc -> string, show: Value -> string, vfield: string)
    : (nat, seq<string>) -> Result<map<Value, set<Cell>>>
  {
    (n: nat, chunk: seq<string>) => DictChunk(sparql(n, chunk), text(chunk), describe, show, vfield)
  }

  /** The call `retry_fetch` wraps in `get_countries`. */
  function CountryFetch(sparql: (nat, seq<string>) -> Result<Value>, text: seq<string> -> string,
                        describe: Exc -> string, show: Value -> string)
    : (nat, seq<string>) -> Result<map<Value, string>>
  {
    (n: nat, chunk: seq<string>) => CountryChunk(sparql(n, chunk), text(chunk), describe, show)
  }

  /** The call `retry_fetch` wraps in `get_wiki_url`. */
  function UrlFetch(sparql: (nat, seq<string>) -> Result<Value>, text: seq<string> -> string,
                    describe: Exc -> string, show: Value -> string)
    : (nat, seq<string>) -> Result<map<Value, Value>>
  {
    (n: nat, chunk: seq<string>) => UrlChunk(sparql(n, chunk), text(chunk), describe, show)
  }

  /** Each cell `get_dict` returns for an id is the cleaned value of a row
      some query's answer gave for that id. */
  lemma DictCellSourced(d: map<string, set<Cell>>, sparql: (nat, seq<string>) -> Result<Value>, text: seq<string> -> string,
                        describe: Exc -> string, show: Value -> string, vfield: string, k: string, c: Cell)
    requires Sourced(d, DictFetch(sparql, text, describe, show, vfield)) && k in d && c in d[k]
    ensures exists n: nat, chunk: seq<string> ::
      && sparql(n, chunk).Ok? && WellShaped(sparql(n, chunk).value)
      && exists i :: 0 <= i < |Bindings(sparql(n, chunk).value)|
           && Entry(Bindings(sparql(n, chunk).value)[i], "k", vfield, DictCell) == Ok(Some((VStr(k), c)))
  {
    var fetch := DictFetch(sparql, text, describe, show, vfield);
    var n: nat, chunk :| Fetched(fetch, n, chunk, k, d[k]);
    DictChunkCells(sparql(n, chunk), text(chunk), describe, show, vfield, VStr(k), c);
  }

  /** The wrapped helpers, with `sparql(n, chunk)` the answer to the
      `n`-th query and `text(chunk)` that query's text.  `rounds` and
      `plan` are the rounds `retry_fetch` ran and their chunks. */
  method GetDict(args: seq<string>, vfield: string, sparql: (nat, seq<string>) -> Result<Value>, text: seq<string> -> string,
                 describe: Exc -> string, show: Value -> string, clock: nat -> real)
    returns (r: Result<map<string, set<Cell>>>, ghost rounds: seq<Round>, ghost plan: seq<seq<seq<string>>>)
    ensures args != [] ==> Retried(Elems(args), 300, clock, rounds, plan, DictFetch(sparql, text, describe, show, vfield), NonEmpty)
    ensures args != [] ==> r == Answer(Replay(Elems(args), plan, DictFetch(sparql, text, describe, show, vfield), NonEmpty))
    ensures r.Ok? ==> forall k :: k in r.value ==> k in args && r.value[k] != {}
    ensures r.Ok? ==> Sourced(r.value, DictFetch(sparql, text, describe, show, vfield))
    ensures AlwaysAnswers(DictFetch(sparql, text, describe, show, vfield), NonEmpty) ==>
      r.Ok? && r.value.Keys == Elems(args)
    ensures args == [] ==> r == Ok(map[])
    ensures r.Err? ==> !r.error.WikiError?
  {
    var res, rs, events, unresolved, errs, failures, ps :=
      RetryFetch(args, 300, DictFetch(sparql, text, describe, show, vfield), NonEmpty, clock);
    r, rounds, plan := res, rs, ps;
  }

  /** `get_filmaffinity` (`wdt:P480`) and `get_names` (labels): ids with
      exactly one value. */
  method GetSingles(args: seq<string>, sparql: (nat, seq<string>) -> Result<Value>, text: seq<string> -> string,
                    describe: Exc -> string, show: Value -> string, clock: nat -> real)
    returns (r: Result<map<string, Cell>>, ghost rounds: seq<Round>, ghost plan: seq<seq<seq<string>>>)
    ensures args != [] ==> Retried(Elems(args), 300, clock, rounds, plan, DictFetch(sparql, text, describe, show, "v"), NonEmpty)
    ensures args != [] ==>
      var d := Answer(Replay(Elems(args), plan, DictFetch(sparql, text, describe, show, "v"), NonEmpty));
      && (d.Err? ==> r == Err(d.error))
      && (d.Ok? ==> r.Ok? && forall k :: k in r.value <==> k in d.value && |d.value[k]| == 1)
      && (d.Ok? ==> forall k :: k in r.value ==> d.value[k] == {r.value[k]})
    ensures r.Ok? ==> forall k :: k in r.value ==> k in args
    ensures AlwaysAnswers(DictFetch(sparql, text, describe, show, "v"), NonEmpty) ==> r.Ok?
    ensures args == [] ==> r == Ok(map[])
    ensures r.Err? ==> !r.error.WikiError?
  {
    var d;
    d, rounds, plan := GetDict(args, "v", sparql, text, describe, show, clock);
    if d.Err? {
      return Err(d.error), rounds, plan;
    }
    r := Ok(Singles(d.value));
  }

  /** A label list of `get_label_dict` as a set (`list(v)` of a set has
      no repeats). */
  function CellSet(xs: seq<Cell>): (s: set<Cell>)
    ensures forall c :: c in s <==> c in xs
  {
    set c | c in xs
  }

  predicate DistinctCells(xs: seq<Cell>) {
    forall i, j :: 0 <= i < j < |xs| ==> xs[i] != xs[j]
  }

  /** A set holding two different elements is not a singleton. */
  lemma TwoApart<C>(s: set<C>, a: C, b: C)
    requires a in s && b in s && a != b
    ensures |s| != 1
  {
    if |s| == 1 {
      SingletonUnique(s);
    }
  }

  /** `get_names` as written, over the dict of label lists that `@cache`
      keeps for `get_label_dict`: `v.pop()` reads each one-label list and
      empties it inside that shared dict, so the memo afterwards holds the
      emptied lists. */
  function NamesAsWritten(memo: map<string, seq<Cell>>): (r: (map<string, Cell>, map<string, seq<Cell>>))
    ensures forall k :: k in r.0 <==> k in memo && |memo[k]| == 1
    ensures forall k :: k in r.0 ==> memo[k] == [r.0[k]]
    ensures r.1.Keys == memo.Keys
    ensures forall k :: k in memo ==> r.1[k] == (if |memo[k]| == 1 then [] else memo[k])
  {
    (map k | k in memo && |memo[k]| == 1 :: memo[k][0],
     map k | k in memo :: if |memo[k]| == 1 then [] else memo[k])
  }

  /** As written, a second `get_names` call on the same ids finds every
      one-label list emptied and returns nothing. */
  lemma NamesAsWrittenForgets(memo: map<string, seq<Cell>>)
    ensures NamesAsWritten(NamesAsWritten(memo).1).0 == map[]
  {
    var after := NamesAsWritten(memo).1;
    forall k | k in after ensures |after[k]| != 1 {
    }
  }

  /** The input that shows it: one id with one label, asked for twice. */
  lemma NamesAsWrittenTwice()
    ensures var memo := map["tt0111161" := [CText("The Shawshank Redemption")]];
      && NamesAsWritten(memo).0 == map["tt0111161" := CText("The Shawshank Redemption")]
      && NamesAsWritten(NamesAsWritten(memo).1).0 == map[]
  {
    var memo := map["tt0111161" := [CText("The Shawshank Redemption")]];
    NamesAsWrittenForgets(memo);
    assert NamesAsWritten(memo).0.Keys == {"tt0111161"};
  }

  /** `get_names` corrected: the one label is read as `v[0]`, as
      `get_filmaffinity` does, and the memo is left as it is, so the same
      call gives the same names every time. */
  function Names(memo: map<string, seq<Cell>>): (r: map<string, Cell>)
    ensures forall k :: k in r <==> k in memo && |memo[k]| == 1
    ensures forall k :: k in r ==> memo[k] == [r[k]]
  {
    map k | k in memo && |memo[k]| == 1 :: memo[k][0]
  }

  /** The first as-written call returns what the corrected one does. */
  lemma NamesAsWrittenFirstCall(memo: map<string, seq<Cell>>)
    ensures NamesAsWritten(memo).0 == Names(memo)
  {
  }

  /** Over label lists without repeats, the corrected `get_names` is
      `Singles` of their sets, which is what `GetSingles` returns. */
  lemma {:induction false} NamesAreSingles(memo: map<string, seq<Cell>>)
    requires forall k :: k in memo ==> DistinctCells(memo[k])
    ensures Names(memo) == Singles(map k | k in memo :: CellSet(memo[k]))
  {
    var d := map k | k in memo :: CellSet(memo[k]);
    forall k | k in memo ensures |memo[k]| == 1 <==> |d[k]| == 1
    {
      var xs := memo[k];
      if |xs| == 1 {
        assert d[k] == {xs[0]};
      } else if |xs| == 0 {
        assert d[k] == {};
      } else {
        TwoApart(d[k], xs[0], xs[1]);
      }
    }
    forall k | k in Names(memo) ensures d[k] == {Names(memo)[k]}
    {
      assert memo[k] == [Names(memo)[k]];
    }
  }

  /** `get_director`: ids with their directors, sorted. */
  method GetDirector(args: seq<string>, sparql: (nat, seq<string>) -> Result<Value>, text: seq<string> -> string,
                     describe: Exc -> string, show: Value -> string, clock: nat -> real)
    returns (r: Result<map<string, seq<Cell>>>, ghost rounds: seq<Round>, ghost plan: seq<seq<seq<string>>>)
    ensures args != [] ==> Retried(Elems(args), 300, clock, rounds, plan, DictFetch(sparql, text, describe, show, "v"), NonEmpty)
    ensures args != [] ==>
      var d := Answer(Replay(Elems(args), plan, DictFetch(sparql, text, describe, show, "v"), NonEmpty));
      && (d.Err? ==> r == Err(d.error))
      && (d.Ok? ==> r == Director(d.value))
    ensures r.Ok? ==> forall k :: k in r.value ==> k in args && r.value[k] != [] && Ascending(r.value[k])
    ensures args == [] ==> r == Ok(map[])
    ensures r.Err? ==> !r.error.WikiError?
  {
    var d;
    d, rounds, plan := GetDict(args, "v", sparql, text, describe, show, clock);
    if d.Err? {
      return Err(d.error), rounds, plan;
    }
    r := Director(d.value);
    if r.Ok? {
      forall k | k in r.value ensures r.value[k] != [] {
        var c :| c in d.value[k];
        assert c in r.value[k];
      }
    }
  }

  /** `get_countries`: each id's sorted country codes. */
  method GetCountries(args: seq<string>, sparql: (nat, seq<string>) -> Result<Value>, text: seq<string> -> string,
                      describe: Exc -> string, show: Value -> string, clock: nat -> real)
    returns (r: Result<map<string, string>>, ghost rounds: seq<Round>, ghost plan: seq<seq<seq<string>>>)
    ensures args != [] ==> Retried(Elems(args), 300, clock, rounds, plan, CountryFetch(sparql, text, describe, show), NonBlank)
    ensures args != [] ==> r == Answer(Replay(Elems(args), plan, CountryFetch(sparql, text, describe, show), NonBlank))
    ensures r.Ok? ==> forall k :: k in r.value ==> k in args && r.value[k] != ""
    ensures r.Ok? ==> Sourced(r.value, CountryFetch(sparql, text, describe, show))
    ensures AlwaysAnswers(CountryFetch(sparql, text, describe, show), NonBlank) ==>
      r.Ok? && r.value.Keys == Elems(args)
    ensures args == [] ==> r == Ok(map[])
    ensures r.Err? ==> !r.error.WikiError?
  {
    var res, rs, events, unresolved, errs, failures, ps :=
      RetryFetch(args, 300, CountryFetch(sparql, text, describe, show), NonBlank, clock);
    r, rounds, plan := res, rs, ps;
  }

  /** `get_wiki_url`: ids with exactly one article. */
  method GetWikiUrl(args: seq<string>, sparql: (nat, seq<string>) -> Result<Value>, text: seq<string> -> string,
                    describe: Exc -> string, show: Value -> string, clock: nat -> real)
    returns (r: Result<map<string, Value>>, ghost rounds: seq<Round>, ghost plan: seq<seq<seq<string>>>)
    ensures args != [] ==> Retried(Elems(args), 1000, clock, rounds, plan, UrlFetch(sparql, text, describe, show), Truthy)
    ensures args != [] ==> r == Answer(Replay(Elems(args), plan, UrlFetch(sparql, text, describe, show), Truthy))
    ensures r.Ok? ==> forall k :: k in r.value ==> k in args && Truthy(r.value[k])
    ensures r.Ok? ==> Sourced(r.value, UrlFetch(sparql, text, describe, show))
    ensures AlwaysAnswers(UrlFetch(sparql, text, describe, show), Truthy) ==>
      r.Ok? && r.value.Keys == Elems(args)
    ensures args == [] ==> r == Ok(map[])
    ensures r.Err? ==> !r.error.WikiError?
  {
    var res, rs, events, unresolved, errs, failures, ps :=
      RetryFetch(args, 1000, UrlFetch(sparql, text, describe, show), Truthy, clock);
    r, rounds, plan := res, rs, ps;
  }
}
