/**
 * The buffered SQLite writer of core/dblite.py.  The connection is an
 * append-only log of what was sent to it: opening, single statements,
 * batches of `executemany`, commits and closing.  Whether the connection
 * raises on a batch, and which rows a query yields, are oracles fixed when
 * the writer is built.
 */
module DBlite {

  import opened Values
  import opened Text

  /** Number of rows at which `executemany` sends a template's buffer. */
  const BATCH := 1000

  // --------------------------------------------------------------------- gW

  /** `", ".join(['?'] * n)` */
  function Placeholders(n: nat): string {
    Join(seq(n, _ => "?"), ", ")
  }

  /** `gW(tp)`: the SQL condition matching a column against the tuple. */
  function GW(tp: seq<Value>): (r: Option<string>)
    ensures r.None? <==> |tp| == 0
    ensures |tp| == 1 ==> r == Some("= ?")
    ensures |tp| >= 2 ==> r == Some("in (" + Placeholders(|tp|) + ")")
  {
    if |tp| == 0 then None
    else if |tp| == 1 then Some("= ?")
    else Some("in (" + Placeholders(|tp|) + ")")
  }

  /** How many times `c` occurs in `s`. */
  function Count(c: char, s: string): nat {
    if s == [] then 0 else (if s[0] == c then 1 else 0) + Count(c, s[1..])
  }

  lemma CountAppend(c: char, a: string, b: string)
    ensures Count(c, a + b) == Count(c, a) + Count(c, b)
  {
    if a != [] {
      assert (a + b)[0] == a[0];
      assert (a + b)[1..] == a[1..] + b;
      CountAppend(c, a[1..], b);
    } else {
      assert a + b == b;
    }
  }

  /** The placeholder list for `n >= 1` items is `?`, `,`, ` ` repeated, so it
      holds exactly `n` question marks separated by `", "`. */
  lemma {:induction false} PlaceholdersShape(n: nat)
    requires n >= 1
    ensures |Placeholders(n)| == 3 * n - 2
    ensures forall i :: 0 <= i < |Placeholders(n)| ==>
      Placeholders(n)[i] == (if i % 3 == 0 then '?' else if i % 3 == 1 then ',' else ' ')
    ensures Count('?', Placeholders(n)) == n
  {
    var qs := seq(n, _ => "?");
    if n == 1 {
      assert Placeholders(1) == "?";
      assert Count('?', "?") == 1;
    } else {
      var rest := seq(n - 1, _ => "?");
      assert qs[1..] == rest;
      assert qs[0] == "?";
      var p := Placeholders(n - 1);
      assert Placeholders(n) == "?, " + p;
      PlaceholdersShape(n - 1);
      CountAppend('?', "?, ", p);
      assert Count('?', "?, ") == 1;
      forall i | 3 <= i < |Placeholders(n)|
        ensures Placeholders(n)[i] == (if i % 3 == 0 then '?' else if i % 3 == 1 then ',' else ' ')
      {
        assert Placeholders(n)[i] == p[i - 3];
        assert (i - 3) % 3 == i % 3;
      }
    }
  }

  /** The condition `gW` builds has one `?` per item of the tuple. */
  lemma GWPlaceholderCount(tp: seq<Value>)
    requires |tp| >= 1
    ensures Count('?', GW(tp).value) == |tp|
  {
    if |tp| >= 2 {
      PlaceholdersShape(|tp|);
      CountAppend('?', "in (", Placeholders(|tp|));
      CountAppend('?', "in (" + Placeholders(|tp|), ")");
    } else {
      assert GW(tp).value == "= ?";
    }
  }

  // ------------------------------------------------------------ connection

  /** What was sent to the SQLite connection. */
  datatype DbEvent =
    | SentConnect
    | SentExecute(sql: string)
    | SentBatch(sql: string, rows: seq<Value>)
    | SentCommit
    | SentClose

  /** The rows buffered for a template (a `defaultdict(list)` read). */
  function Pending(many: map<string, seq<Value>>, sql: string): seq<Value> {
    if sql in many then many[sql] else []
  }

  /** Keys of a dict in insertion order once `sql` has been written to. */
  function Touch(order: seq<string>, sql: string): (r: seq<string>)
    ensures sql in r && |r| >= |order|
    ensures forall t :: t in r <==> t in order || t == sql
  {
    if sql in order then order else order + [sql]
  }

  /** Keys in insertion order once `sql` has been deleted. */
  function Without(order: seq<string>, sql: string): (r: seq<string>)
    ensures forall t :: t in r <==> t in order && t != sql
    ensures |r| <= |order|
  {
    if order == [] then []
    else if order[0] == sql then Without(order[1..], sql)
    else [order[0]] + Without(order[1..], sql)
  }

  lemma WithoutDistinct(order: seq<string>, sql: string)
    requires Distinct(order)
    ensures Distinct(Without(order, sql))
  {
    if order != [] {
      WithoutDistinct(order[1..], sql);
      if order[0] != sql {
        var w := Without(order[1..], sql);
        assert order[0] !in order[1..];
        assert order[0] !in w;
        assert forall i :: 0 < i < |[order[0]] + w| ==> ([order[0]] + w)[i] == w[i - 1];
      }
    }
  }

  /** The `Connect` the lazy `con` property emits when nothing is open. */
  function Opening(connected: bool): seq<DbEvent> {
    if connected then [] else [SentConnect]
  }

  /** Index of the first template whose batch the connection rejects, or the
      number of templates when it rejects none. */
  function FirstRejected(rejects: (string, seq<Value>) -> bool, order: seq<string>,
                         many: map<string, seq<Value>>): (k: nat)
    ensures k <= |order|
    ensures forall i :: 0 <= i < k ==> !rejects(order[i], Pending(many, order[i]))
    ensures k < |order| ==> rejects(order[k], Pending(many, order[k]))
  {
    if order == [] then 0
    else if rejects(order[0], Pending(many, order[0])) then 0
    else 1 + FirstRejected(rejects, order[1..], many)
  }

  /** A template the connection rejects, at or before the first rejected
      one, is the first rejected one. */
  lemma RejectedHere(rejects: (string, seq<Value>) -> bool, o: seq<string>,
                     m: map<string, seq<Value>>, k: nat)
    requires k < |o| && k <= FirstRejected(rejects, o, m)
    requires rejects(o[k], Pending(m, o[k]))
    ensures FirstRejected(rejects, o, m) == k
  {
  }

  /** A template the connection accepts, at or before the first rejected
      one, lies strictly before it. */
  lemma AcceptedHere(rejects: (string, seq<Value>) -> bool, o: seq<string>,
                     m: map<string, seq<Value>>, k: nat)
    requires k < |o| && k <= FirstRejected(rejects, o, m)
    requires !rejects(o[k], Pending(m, o[k]))
    ensures k < FirstRejected(rejects, o, m)
  {
  }

  /** The batches for the first `n` templates, in order. */
  function Batches(order: seq<string>, many: map<string, seq<Value>>, n: nat): (r: seq<DbEvent>)
    requires n <= |order|
    ensures |r| == n
  {
    if n == 0 then [] else Batches(order, many, n - 1) + [SentBatch(order[n - 1], Pending(many, order[n - 1]))]
  }

  /** Batch `i` carries the buffer of the `i`-th template. */
  lemma {:induction false} BatchesAt(order: seq<string>, many: map<string, seq<Value>>, n: nat)
    requires n <= |order|
    ensures forall i :: 0 <= i < n ==> Batches(order, many, n)[i] == SentBatch(order[i], Pending(many, order[i]))
    decreases n
  {
    if n > 0 {
      BatchesAt(order, many, n - 1);
      assert forall i :: 0 <= i < n - 1 ==> Batches(order, many, n)[i] == Batches(order, many, n - 1)[i];
    }
  }

  /** The statements `close` sends once a connection is open. */
  function ClosingEvents(quickRelease: bool): (r: seq<DbEvent>)
    ensures |r| >= 2 && r[0] == SentCommit && r[|r| - 1] == SentClose
    ensures forall e :: e in r ==> !e.SentBatch?
    ensures quickRelease ==> r == [SentCommit, SentClose]
    ensures !quickRelease ==> SentExecute("VACUUM") in r && |r| == 6
  {
    if quickRelease then [SentCommit, SentClose]
    else [SentCommit, SentExecute("pragma integrity_check"), SentExecute("pragma foreign_key_check"),
          SentExecute("VACUUM"), SentCommit, SentClose]
  }

  /** `to_tuple` unwraps a row holding a single column. */
  function Unwrap(row: Value): (r: Value)
    ensures (row.VTuple? || row.VList?) && |row.items| == 1 ==> r == row.items[0]
    ensures !((row.VTuple? || row.VList?) && |row.items| == 1) ==> r == row
  {
    if (row.VTuple? || row.VList?) && |row.items| == 1 then row.items[0] else row
  }

  /** Can the row be unpacked as `k, v`? */
  predicate IsPair(row: Value) {
    (row.VTuple? || row.VList?) && |row.items| == 2
  }

  function Key(row: Value): Value requires IsPair(row) { row.items[0] }

  function Val(row: Value): Value requires IsPair(row) { row.items[1] }

  /** Index of the last row whose key is `k`, or -1 when there is none. */
  function LastIndex(rows: seq<Value>, k: Value): (r: int)
    requires forall i :: 0 <= i < |rows| ==> IsPair(rows[i])
    ensures -1 <= r < |rows|
    ensures r >= 0 ==> Key(rows[r]) == k
    ensures forall j :: r < j < |rows| ==> Key(rows[j]) != k
  {
    if rows == [] then -1
    else if Key(rows[|rows| - 1]) == k then |rows| - 1
    else LastIndex(rows[..|rows| - 1], k)
  }

  /** Looking at one more row: it is the last one with its key. */
  lemma LastIndexSnoc(rows: seq<Value>, i: nat, k: Value)
    requires i < |rows|
    requires forall j :: 0 <= j <= i ==> IsPair(rows[j])
    ensures LastIndex(rows[..i + 1], k) == if Key(rows[i]) == k then i else LastIndex(rows[..i], k)
  {
    assert rows[..i + 1][..i] == rows[..i];
  }

  /** The dict built from two-column rows, later rows overriding earlier
      ones; a row of another width is a `ValueError`. */
  method PairsDict(rows: seq<Value>) returns (r: Result<map<Value, Value>>)
    ensures r.Ok? <==> forall i :: 0 <= i < |rows| ==> IsPair(rows[i])
    ensures r.Ok? ==> forall k :: k in r.value <==> LastIndex(rows, k) >= 0
    ensures r.Ok? ==> forall k :: k in r.value ==> r.value[k] == Val(rows[LastIndex(rows, k)])
  {
    var obj: map<Value, Value> := map[];
    for i := 0 to |rows|
      invariant forall j :: 0 <= j < i ==> IsPair(rows[j])
      invariant forall k :: k in obj <==> LastIndex(rows[..i], k) >= 0
      invariant forall k :: k in obj ==> obj[k] == Val(rows[LastIndex(rows[..i], k)])
    {
      if !IsPair(rows[i]) {
        return Err(ValueError);
      }
      forall k {
        LastIndexSnoc(rows, i, k);
      }
      obj := obj[Key(rows[i]) := Val(rows[i])];
    }
    assert rows[..|rows|] == rows;
    r := Ok(obj);
  }

  /** The loop of `flush`: connect if needed, then send the buffers in
      order until the connection rejects one.  Returns how many were sent
      and what went over the connection. */
  method SendAll(rejects: (string, seq<Value>) -> bool, o: seq<string>,
                 m: map<string, seq<Value>>, conn: bool) returns (k: nat, sent: seq<DbEvent>)
    ensures k == FirstRejected(rejects, o, m)
    ensures sent == (if o == [] then [] else Opening(conn)) + Batches(o, m, k)
  {
    sent := if o == [] then [] else Opening(conn);
    ghost var head := sent;
    ghost var stop := FirstRejected(rejects, o, m);
    k := 0;
    while k < |o|
      invariant 0 <= k <= |o|
      invariant k <= stop
      invariant sent == head + Batches(o, m, k)
    {
      var sql := o[k];
      var vals := Pending(m, sql);
      if rejects(sql, vals) {
        RejectedHere(rejects, o, m, k);
        return;
      }
      AcceptedHere(rejects, o, m, k);
      ghost var done := Batches(o, m, k);
      assert Batches(o, m, k + 1) == done + [SentBatch(sql, vals)];
      assert (head + done) + [SentBatch(sql, vals)] == head + (done + [SentBatch(sql, vals)]);
      sent := sent + [SentBatch(sql, vals)];
      k := k + 1;
    }
  }

  /** Every buffer is below the batch size, as it stays while no batch is
      rejected. */
  predicate Compact(many: map<string, seq<Value>>) {
    forall t :: t in many ==> |many[t]| < BATCH
  }

  /** The buffers of `__many` and their keys in insertion order: no key
      twice, the same keys, and no buffer empty. */
  ghost predicate Buffered(order: seq<string>, many: map<string, seq<Value>>) {
    && Distinct(order)
    && (forall t :: t in many <==> t in order)
    && (forall t :: t in many ==> many[t] != [])
  }

  lemma BufferedTouch(order: seq<string>, many: map<string, seq<Value>>, sql: string, buf: seq<Value>)
    requires Buffered(order, many) && buf != []
    ensures Buffered(Touch(order, sql), many[sql := buf])
  {
    if sql !in order {
      var o := order + [sql];
      forall i, j | 0 <= i < j < |o| ensures o[i] != o[j] {
        if j == |order| { assert o[i] == order[i]; assert order[i] in order; }
      }
    }
  }

  lemma BufferedWithout(order: seq<string>, many: map<string, seq<Value>>, sql: string)
    requires Buffered(order, many)
    ensures Buffered(Without(order, sql), many - {sql})
  {
    WithoutDistinct(order, sql);
  }

  lemma CompactPut(many: map<string, seq<Value>>, sql: string, buf: seq<Value>)
    requires Compact(many) && |buf| < BATCH
    ensures Compact(many[sql := buf])
  {
  }

  lemma CompactRemove(many: map<string, seq<Value>>, sql: string)
    requires Compact(many)
    ensures Compact(many - {sql})
  {
  }

  /** The state change of `executemany(sql, vals)`, on values. */
  method Enqueue(rejects: (string, seq<Value>) -> bool, order: seq<string>,
                 many: map<string, seq<Value>>, connected: bool, log: seq<DbEvent>,
                 sql: string, vals: Value)
    returns (r: Result<bool>, o: seq<string>, m: map<string, seq<Value>>, conn: bool, sent: seq<DbEvent>)
    requires Buffered(order, many)
    ensures Buffered(o, m)
    ensures |Pending(many, sql)| + 1 < BATCH ==>
      && r == Ok(false) && conn == connected && sent == log
      && m == many[sql := Pending(many, sql) + [vals]] && o == Touch(order, sql)
    ensures |Pending(many, sql)| + 1 >= BATCH && rejects(sql, Pending(many, sql) + [vals]) ==>
      && r.Err? && conn && sent == log + Opening(connected)
      && m == many[sql := Pending(many, sql) + [vals]] && o == Touch(order, sql)
    ensures |Pending(many, sql)| + 1 >= BATCH && !rejects(sql, Pending(many, sql) + [vals]) ==>
      && r == Ok(true) && conn
      && sent == log + Opening(connected) + [SentBatch(sql, Pending(many, sql) + [vals])]
      && m == many - {sql} && o == Without(Touch(order, sql), sql)
    ensures Compact(many) && r.Ok? ==> Compact(m)
  {
    var buf := Pending(many, sql) + [vals];
    BufferedTouch(order, many, sql, buf);
    m, o, conn, sent := many[sql := buf], Touch(order, sql), connected, log;
    if |buf| < BATCH {
      if Compact(many) { CompactPut(many, sql, buf); }
      r := Ok(false);
    } else {
      sent, conn := sent + Opening(conn), true;
      if rejects(sql, buf) {
        r := Err(OtherError("InterfaceError"));
      } else {
        sent := sent + [SentBatch(sql, buf)];
        BufferedWithout(o, m, sql);
        assert m - {sql} == many - {sql};
        if Compact(many) { CompactRemove(many, sql); }
        m, o := many - {sql}, Without(o, sql);
        r := Ok(true);
      }
    }
  }

  class Writer {
    const file: string
    const quickRelease: bool
    /** Does the connection raise on `executemany(sql, rows)`? */
    const rejects: (string, seq<Value>) -> bool
    /** The rows a `select` yields. */
    const query: string -> seq<Value>

    var connected: bool
    /** The keys of `__many`, in insertion order. */
    var order: seq<string>
    var many: map<string, seq<Value>>
    var log: seq<DbEvent>

    ghost predicate Valid()
      reads this`order, this`many
    {
      Buffered(order, many)
    }

    constructor (file: string, quickRelease: bool,
                 rejects: (string, seq<Value>) -> bool, query: string -> seq<Value>)
      ensures Valid()
      ensures this.file == file && this.quickRelease == quickRelease
      ensures this.rejects == rejects && this.query == query
      ensures !connected && order == [] && many == map[] && log == []
    {
      this.file := file;
      this.quickRelease := quickRelease;
      this.rejects := rejects;
      this.query := query;
      connected := false;
      order := [];
      many := map[];
      log := [];
    }

    /** The `con` property: connect on first use. */
    method Con()
      modifies this
      ensures connected && log == old(log) + Opening(old(connected))
      ensures order == old(order) && many == old(many)
    {
      if !connected {
        log := log + [SentConnect];
        connected := true;
      }
    }

    /** `execute(sql)` */
    method Execute(sql: string)
      modifies this
      ensures connected && log == old(log) + Opening(old(connected)) + [SentExecute(sql)]
      ensures order == old(order) && many == old(many)
    {
      Con();
      log := log + [SentExecute(sql)];
    }

    /** `executemany(sql, vals)`: buffer the row; once the template holds
        `BATCH` rows send them as one batch and drop that buffer.  The result
        says whether a batch was sent. */
    method ExecuteMany(sql: string, vals: Value) returns (r: Result<bool>)
      requires Valid()
      modifies this
      ensures Valid()
      ensures |Pending(old(many), sql)| + 1 < BATCH ==>
        && r == Ok(false) && connected == old(connected) && log == old(log)
        && many == old(many)[sql := Pending(old(many), sql) + [vals]] && order == Touch(old(order), sql)
      ensures |Pending(old(many), sql)| + 1 >= BATCH && rejects(sql, Pending(old(many), sql) + [vals]) ==>
        && r.Err? && connected && log == old(log) + Opening(old(connected))
        && many == old(many)[sql := Pending(old(many), sql) + [vals]] && order == Touch(old(order), sql)
      ensures |Pending(old(many), sql)| + 1 >= BATCH && !rejects(sql, Pending(old(many), sql) + [vals]) ==>
        && r == Ok(true) && connected
        && log == old(log) + Opening(old(connected)) + [SentBatch(sql, Pending(old(many), sql) + [vals])]
        && many == old(many) - {sql} && order == Without(Touch(old(order), sql), sql)
      ensures Compact(old(many)) && r.Ok? ==> Compact(many)
    {
      var o, m, conn, sent;
      r, o, m, conn, sent := Enqueue(rejects, order, many, connected, log, sql, vals);
      many, order, connected, log := m, o, conn, sent;
    }

    /** `flush()`: send every buffer as a batch, in insertion order, then
        clear them all.  A rejected batch is re-raised before anything is
        cleared, after the batches before it were sent. */
    method Flush() returns (r: Result<()>)
      requires Valid()
      modifies this
      ensures Valid()
      ensures connected == (old(connected) || old(order) != [])
      ensures log == old(log) + (if old(order) == [] then [] else Opening(old(connected)))
        + Batches(old(order), old(many), FirstRejected(rejects, old(order), old(many)))
      ensures FirstRejected(rejects, old(order), old(many)) == |old(order)| ==>
        r.Ok? && many == map[] && order == []
      ensures FirstRejected(rejects, old(order), old(many)) < |old(order)| ==>
        r.Err? && many == old(many) && order == old(order)
    {
      var k, sent := SendAll(rejects, order, many, connected);
      ghost var opening := if order == [] then [] else Opening(connected);
      assert log + sent == log + opening + Batches(order, many, k);
      log := log + sent;
      connected := connected || order != [];
      if k < |order| {
        r := Err(OtherError("InterfaceError"));
      } else {
        many, order := map[], [];
        r := Ok(());
      }
    }

    /** `commit()` */
    method Commit()
      modifies this
      ensures connected && log == old(log) + Opening(old(connected)) + [SentCommit]
      ensures order == old(order) && many == old(many)
    {
      Con();
      log := log + [SentCommit];
    }

    /** `close()`: nothing when no connection is open; otherwise commit, run
        the integrity checks and `VACUUM` unless releasing quickly, and close.
        Buffered rows are never sent. */
    method Close()
      modifies this
      ensures !connected
      ensures log == old(log) + (if old(connected) then ClosingEvents(quickRelease) else [])
      ensures order == old(order) && many == old(many)
    {
      if !connected {
        return;
      }
      ghost var start := log;
      Commit();
      assert log == start + [SentCommit];
      if !quickRelease {
        Execute("pragma integrity_check");
        assert log == start + [SentCommit, SentExecute("pragma integrity_check")];
        Execute("pragma foreign_key_check");
        assert log == start + [SentCommit, SentExecute("pragma integrity_check"),
                               SentExecute("pragma foreign_key_check")];
        Execute("VACUUM");
        assert log == start + [SentCommit, SentExecute("pragma integrity_check"),
                               SentExecute("pragma foreign_key_check"), SentExecute("VACUUM")];
        Commit();
        assert log == start + ClosingEvents(quickRelease)[..5];
      }
      log := log + [SentClose];
      connected := false;
    }

    /** `select(sql)` followed by `to_tuple`: single-column rows are
        unwrapped. */
    method ToTuple(sql: string) returns (r: seq<Value>)
      modifies this
      ensures connected && log == old(log) + Opening(old(connected)) + [SentExecute(sql)]
      ensures order == old(order) && many == old(many)
      ensures |r| == |query(sql)| && forall i :: 0 <= i < |r| ==> r[i] == Unwrap(query(sql)[i])
    {
      Execute(sql);
      var rows := query(sql);
      r := [];
      for i := 0 to |rows|
        invariant |r| == i && forall j :: 0 <= j < i ==> r[j] == Unwrap(rows[j])
      {
        r := r + [Unwrap(rows[i])];
      }
    }

    /** `select(sql)` followed by `get_dict`: each row is unpacked as
        `k, v`; a later row overwrites an earlier one with the same key.  A
        row that is not a pair raises `ValueError`. */
    method GetDict(sql: string) returns (r: Result<map<Value, Value>>)
      modifies this
      ensures connected && log == old(log) + Opening(old(connected)) + [SentExecute(sql)]
      ensures order == old(order) && many == old(many)
      ensures r.Ok? <==> forall i :: 0 <= i < |query(sql)| ==> IsPair(query(sql)[i])
      ensures r.Ok? ==> forall k :: k in r.value <==> LastIndex(query(sql), k) >= 0
      ensures r.Ok? ==> forall k :: k in r.value ==> r.value[k] == Val(query(sql)[LastIndex(query(sql), k)])
    {
      Execute(sql);
      r := PairsDict(query(sql));
    }
  }
}
