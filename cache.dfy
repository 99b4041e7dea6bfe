/**
 * core/cache.py: the file cache decorators.  A cache names a file from the
 * call's arguments, decides whether the file is too old, reads it or
 * computes and saves the value.  `DictCache` also adopts the newest copy
 * from mirror URLs when the local file is missing, and stamps saved dicts
 * with the time they were saved.
 *
 * The working directory is taken to be the file manager's root, so the
 * plain `os.path` checks and `FM.resolve_path` agree on relative names.
 */
module Cache {

  import opened Values
  import opened Text
  import opened Files

  /** Seconds in a day. */
  const DAY: real := 86400.0

  /** `sha256_hash(*args, **kwargs)`: a digest of the JSON text of
      `[args, kwargs]`. */
  type Digest = (seq<Value>, map<string, Value>) -> string

  /** `to_timestamp` on a string: parse the numbers it holds as a date. */
  type Stamp = string -> Result<real>

  /** The decorator class. */
  datatype Kind =
    | Plain            // Cache
    | Static           // StaticCache
    | Hashed           // HashCache
    | StaticHashed     // StaticHashCache
    | Dicts(mirror: seq<Value>)   // DictCache

  predicate IsStatic(k: Kind) { k.Static? || k.StaticHashed? }

  /** The fields `Cache.__init__` sets. */
  datatype Config = Config(
    file: string,
    kind: Kind,
    kwself: Option<string>,
    reload: bool,
    skip: bool,
    threshold: Option<real>,
    kwargs: map<string, Value>)

  /** `DictCache.__init__`'s mirror list: a string is split on whitespace, a
      tuple kept, anything else ignored. */
  function MirrorsOf(mirror: Value): (r: seq<Value>)
    ensures mirror.VStr? ==> forall i :: 0 <= i < |r| ==> r[i].VStr? && r[i].s != [] && NoSpace(r[i].s)
    ensures mirror.VTuple? ==> r == mirror.items
    ensures !mirror.VStr? && !mirror.VTuple? ==> r == []
  {
    if mirror.VStr? then Words(SplitWs(Strip(mirror.s)))
    else if mirror.VTuple? then mirror.items
    else []
  }

  function Words(ws: seq<string>): (r: seq<Value>)
    requires forall i :: 0 <= i < |ws| ==> ws[i] != [] && NoSpace(ws[i])
    ensures |r| == |ws| && forall i :: 0 <= i < |r| ==> r[i] == VStr(ws[i])
  {
    if ws == [] then [] else [VStr(ws[0])] + Words(ws[1..])
  }

  /** `Cache.__init__`: the age limit in days becomes a fixed threshold on
      modification times, computed once from the clock at construction. */
  function NewConfig(now: real, file: string, kind: Kind, kwself: Option<string>, reload: bool,
                     skip: bool, maxOld: Option<real>, kwargs: map<string, Value>): (c: Config)
    ensures maxOld.None? <==> c.threshold.None?
    ensures maxOld.Some? ==> c.threshold.value + maxOld.value * DAY == now
    ensures c.file == file && c.kind == kind && c.reload == reload && c.skip == skip
  {
    Config(file, kind, kwself, reload, skip,
           if maxOld.None? then None else Some(now - maxOld.value * DAY), kwargs)
  }

  // -------------------------------------------------------- file names

  /** The keyword arguments `callCache` hands to `parse_file_name`: a
      non-static cache adds the object under `kwself` when that is a
      string. */
  function NameKwargs(c: Config, slf: Value, kwargs: map<string, Value>): map<string, Value> {
    if !IsStatic(c.kind) && c.kwself.Some? then kwargs[c.kwself.value := slf] else kwargs
  }

  /** `parse_file_name` of each class, as `callCache` calls it. */
  function FileName(c: Config, format: Formatter, digest: Digest, slf: Value,
                    args: seq<Value>, kwargs: map<string, Value>): (r: Result<string>)
    ensures (&& !c.kind.Hashed? && !c.kind.StaticHashed? && args == [] && kwargs == map[]
             && (IsStatic(c.kind) || c.kwself.None? || c.kwself == Some("slf"))) ==> r == Ok(c.file)
    ensures c.kind.Hashed? || c.kind.StaticHashed? ==>
            r == format(c.file, [VStr(digest(args, NameKwargs(c, slf, kwargs) - {"slf"}))], map[])
    ensures c.kind.Static? && (args != [] || kwargs != map[]) ==> r == format(c.file, args, kwargs)
    ensures (c.kind.Plain? || c.kind.Dicts?) && (args != [] || NameKwargs(c, slf, kwargs) - {"slf"} != map[]) ==>
            r == format(c.file, args, NameKwargs(c, slf, kwargs) - {"slf"})
    ensures (c.kind.Plain? || c.kind.Dicts?) && args == [] && NameKwargs(c, slf, kwargs) - {"slf"} == map[] ==> r == Ok(c.file)
  {
    var flk := NameKwargs(c, slf, kwargs);
    match c.kind
    case Static =>
      if args != [] || flk != map[] then format(c.file, args, flk) else Ok(c.file)
    case Hashed => format(c.file, [VStr(digest(args, flk - {"slf"}))], map[])
    case StaticHashed => format(c.file, [VStr(digest(args, flk - {"slf"}))], map[])
    case _ =>
      var kw := flk - {"slf"};
      if args != [] || kw != map[] then format(c.file, args, kw) else Ok(c.file)
  }

  /** The object a non-static cache is called on changes its file name only
      when it is passed under a keyword other than `slf`. */
  lemma FileNameIgnoresSelf(c: Config, format: Formatter, digest: Digest, s1: Value, s2: Value,
                            args: seq<Value>, kwargs: map<string, Value>)
    requires c.kwself.None? || c.kwself == Some("slf") || IsStatic(c.kind)
    ensures FileName(c, format, digest, s1, args, kwargs) == FileName(c, format, digest, s2, args, kwargs)
  {
    assert NameKwargs(c, s1, kwargs) - {"slf"} == NameKwargs(c, s2, kwargs) - {"slf"};
  }

  // ------------------------------------------------------------ tooOld

  /** Where `os.path` finds a file name: relative to the working directory,
      which is the root. */
  function OsPath(fm: Manager, fl: string): string {
    if IsAbsolute(fl) then fl else fm.root + "/" + fl
  }

  /** `Cache.tooOld(fl)` */
  function TooOld(c: Config, fm: Manager, files: map<string, Entry>, fl: Option<string>): (r: bool)
    ensures fl.None? || c.reload ==> r
    ensures fl.Some? && OsPath(fm, fl.value) !in files ==> r
    ensures fl.Some? && OsPath(fm, fl.value) in files && !c.reload ==>
      (r <==> c.threshold.Some? && files[OsPath(fm, fl.value)].mtime < c.threshold.value)
  {
    if fl.None? then true
    else if OsPath(fm, fl.value) !in files then true
    else if c.reload then true
    else if c.threshold.None? then false
    else files[OsPath(fm, fl.value)].mtime < c.threshold.value
  }

  /** With an age limit of `maxOld` days, an existing file modified at `w` is
      fresh exactly when it is at most `maxOld` days old at construction
      time; a file exactly at the limit still counts as fresh. */
  lemma {:induction false} FreshnessBoundary(now: real, file: string, kind: Kind, kwself: Option<string>,
                                             maxOld: real, kwargs: map<string, Value>,
                                             fm: Manager, files: map<string, Entry>, fl: string)
    requires OsPath(fm, fl) in files
    ensures var c := NewConfig(now, file, kind, kwself, false, false, Some(maxOld), kwargs);
      !TooOld(c, fm, files, Some(fl)) <==> now - files[OsPath(fm, fl)].mtime <= maxOld * DAY
  {
    var c := NewConfig(now, file, kind, kwself, false, false, Some(maxOld), kwargs);
    assert c.threshold == Some(now - maxOld * DAY);
  }

  // ------------------------------------------------------------ mirrors

  /** `to_timestamp(v)`: `None` for anything but a string. */
  function ToTimestamp(v: Value, stamp: Stamp): (r: Result<Option<real>>)
    ensures !v.VStr? ==> r == Ok(None)
    ensures v.VStr? && stamp(v.s).Ok? ==> r == Ok(Some(stamp(v.s).value))
  {
    if !v.VStr? then Ok(None)
    else match stamp(v.s)
      case Ok(t) => Ok(Some(t))
      case Err(e) => Err(e)
  }

  /** `to_timestamp(d.get('__time__')) or -1`: a copy without a time, or
      with time 0, ranks as -1. */
  function TimeKey(d: map<string, Value>, stamp: Stamp): (r: Result<real>)
    ensures ToTimestamp(DictGet(d, "__time__"), stamp) == Ok(None) ==> r == Ok(-1.0)
    ensures var ts := ToTimestamp(DictGet(d, "__time__"), stamp);
      ts.Ok? && ts.value.Some? ==> r == Ok(if ts.value.value == 0.0 then -1.0 else ts.value.value)
    ensures var ts := ToTimestamp(DictGet(d, "__time__"), stamp);
      ts.Err? ==> r == Err(ts.error)
  {
    match ToTimestamp(DictGet(d, "__time__"), stamp)
    case Err(e) => Err(e)
    case Ok(None) => Ok(-1.0)
    case Ok(Some(t)) => Ok(if t == 0.0 then -1.0 else t)
  }

  /** What one mirror contributes: the dict it serves with its time key,
      nothing when it serves no dict, or the exception it causes. */
  function Probe(mirror: Value, name: string, fetch: string -> Result<Value>, stamp: Stamp): Result<Option<(map<string, Value>, real)>> {
    if !mirror.VStr? then Err(TypeError)
    else match fetch(mirror.s + name)
      case Err(e) => Err(e)
      case Ok(data) =>
        if !data.VDict? then Ok(None)
        else match TimeKey(data.m, stamp)
          case Err(e) => Err(e)
          case Ok(t) => Ok(Some((data.m, t)))
  }

  /** The comparison `new_time > old_time` of `__find_in_mirror`, as
      written: `old_time` is the adopted dict's raw `'__time__'` value, so a
      stored date string makes the comparison raise. */
  function NewerAsWritten(newTime: real, oldTime: Value): Result<bool> {
    if oldTime == VNone then Ok(true)
    else match Numeric(oldTime)
      case Some(t) => Ok(newTime > t)
      case None => Err(TypeError)
  }

  /** Two mirrors serving dicts stamped the way `save` stamps them: the
      second comparison meets the first dict's date string and raises. */
  lemma NewerAsWrittenRaises(newTime: real, stamped: string)
    ensures NewerAsWritten(newTime, VStr(stamped)) == Err(TypeError)
  {
  }

  /** The adopted dict carries a `__time__` value: `d.get('__time__')` is
      not `None`. */
  predicate Dated(d: map<string, Value>) {
    DictGet(d, "__time__") != VNone
  }

  /** Mirror `j` serves a dict. */
  ghost predicate Serves(mirrors: seq<Value>, name: string, fetch: string -> Result<Value>, stamp: Stamp, j: int)
    requires 0 <= j < |mirrors|
  {
    Probe(mirrors[j], name, fetch, stamp).Ok? && Probe(mirrors[j], name, fetch, stamp).value.Some?
  }

  /** Every dict the mirrors serve carries a `__time__` value. */
  ghost predicate AllDated(mirrors: seq<Value>, name: string, fetch: string -> Result<Value>, stamp: Stamp) {
    forall j :: 0 <= j < |mirrors| && Serves(mirrors, name, fetch, stamp, j) ==>
      Dated(Probe(mirrors[j], name, fetch, stamp).value.value.0)
  }

  /** `__find_in_mirror(name)` with the evident intent of its comparison:
      the adopted copy's time is ranked like the new one.  A dict replaces
      the adopted one when that has no `__time__` (as the first one does,
      the initial dict being empty) or when it ranks strictly higher; so the
      result is the first of the newest dicts when every served dict is
      dated.  `None` when no mirror serves a dict; any exception a mirror
      causes propagates. */
  method FindInMirror(mirrors: seq<Value>, name: string, fetch: string -> Result<Value>, stamp: Stamp)
    returns (r: Result<Option<(string, map<string, Value>)>>)
    ensures (forall j :: 0 <= j < |mirrors| ==> Probe(mirrors[j], name, fetch, stamp).Ok?) <==> r.Ok?
    ensures r.Ok? ==> (r.value.None? <==>
      forall j :: 0 <= j < |mirrors| ==> Probe(mirrors[j], name, fetch, stamp).value.None?)
    ensures r.Ok? && r.value.Some? ==> exists k :: 0 <= k < |mirrors| && Adopted(mirrors, name, fetch, stamp, k, r.value.value)
  {
    var u: Option<string> := None;
    var d: map<string, Value> := map[];
    var best := -1.0;
    ghost var k := -1;
    for i := 0 to |mirrors|
      invariant Scanned(mirrors, name, fetch, stamp, i, u, d, best, k)
    {
      var m := mirrors[i];
      if !m.VStr? {
        return Err(TypeError);
      }
      var url := m.s + name;
      var data := fetch(url);
      if data.Err? {
        return Err(data.error);
      }
      ghost var u0, d0, best0, k0 := u, d, best, k;
      if data.value.VDict? {
        var newTime := TimeKey(data.value.m, stamp);
        if newTime.Err? {
          return Err(newTime.error);
        }
        assert Probe(m, name, fetch, stamp) == Ok(Some((data.value.m, newTime.value)));
        if !Dated(d) || newTime.value > best {
          u, d, best := Some(url), data.value.m, newTime.value;
          k := i;
        }
      } else {
        assert Probe(m, name, fetch, stamp) == Ok(None);
      }
      ScanStep(mirrors, name, fetch, stamp, i, u0, d0, best0, k0);
      assert (u, d, best, k) == ScanNext(mirrors, name, fetch, stamp, i, u0, d0, best0, k0);
    }
    ScanDone(mirrors, name, fetch, stamp, u, d, best, k);
    if u.None? {
      return Ok(None);
    }
    r := Ok(Some((u.value, d)));
  }

  /** The loop state of `FindInMirror` after the first `i` mirrors: all of
      them probed without an exception; `k` the adopted one (or -1 and
      nothing served yet), served at `u` with `d` ranked `best`; every later
      served dict ranks no higher and finds `d` dated; and when every dict
      so far is dated, every earlier served one ranks strictly lower. */
  ghost predicate Scanned(mirrors: seq<Value>, name: string, fetch: string -> Result<Value>, stamp: Stamp,
                          i: int, u: Option<string>, d: map<string, Value>, best: real, k: int)
  {
    && 0 <= i <= |mirrors|
    && (forall j :: 0 <= j < i ==> Probe(mirrors[j], name, fetch, stamp).Ok?)
    && -1 <= k < i
    && (u.None? <==> k == -1)
    && (k == -1 ==> d == map[] && forall j :: 0 <= j < i ==> Probe(mirrors[j], name, fetch, stamp).value.None?)
    && (k >= 0 ==> (mirrors[k].VStr? && u == Some(mirrors[k].s + name)
                    && Probe(mirrors[k], name, fetch, stamp) == Ok(Some((d, best)))))
    && (k >= 0 ==> forall j :: k < j < i && Serves(mirrors, name, fetch, stamp, j) ==>
          Dated(d) && Probe(mirrors[j], name, fetch, stamp).value.value.1 <= best)
    && (k >= 0 && AllDated(mirrors[..i], name, fetch, stamp) ==>
          forall j :: 0 <= j < k && Serves(mirrors, name, fetch, stamp, j) ==>
            Probe(mirrors[j], name, fetch, stamp).value.value.1 < best)
  }

  /** The loop state once mirror `i` has been probed without an exception. */
  function ScanNext(mirrors: seq<Value>, name: string, fetch: string -> Result<Value>, stamp: Stamp,
                    i: int, u: Option<string>, d: map<string, Value>, best: real, k: int)
    : (Option<string>, map<string, Value>, real, int)
    requires 0 <= i < |mirrors| && Probe(mirrors[i], name, fetch, stamp).Ok?
  {
    match Probe(mirrors[i], name, fetch, stamp).value
    case None => (u, d, best, k)
    case Some(served) =>
      if !Dated(d) || served.1 > best then (Some(mirrors[i].s + name), served.0, served.1, i)
      else (u, d, best, k)
  }

  lemma ScanStep(mirrors: seq<Value>, name: string, fetch: string -> Result<Value>, stamp: Stamp,
                 i: int, u: Option<string>, d: map<string, Value>, best: real, k: int)
    requires Scanned(mirrors, name, fetch, stamp, i, u, d, best, k)
    requires i < |mirrors| && Probe(mirrors[i], name, fetch, stamp).Ok?
    ensures var n := ScanNext(mirrors, name, fetch, stamp, i, u, d, best, k);
      Scanned(mirrors, name, fetch, stamp, i + 1, n.0, n.1, n.2, n.3)
  {
    AllDatedPrefix(mirrors, name, fetch, stamp, i);
  }

  lemma ScanDone(mirrors: seq<Value>, name: string, fetch: string -> Result<Value>, stamp: Stamp,
                 u: Option<string>, d: map<string, Value>, best: real, k: int)
    requires Scanned(mirrors, name, fetch, stamp, |mirrors|, u, d, best, k)
    ensures forall j :: 0 <= j < |mirrors| ==> Probe(mirrors[j], name, fetch, stamp).Ok?
    ensures u.None? <==> forall j :: 0 <= j < |mirrors| ==> Probe(mirrors[j], name, fetch, stamp).value.None?
    ensures u.Some? ==> 0 <= k < |mirrors| && Adopted(mirrors, name, fetch, stamp, k, (u.value, d))
  {
    assert mirrors[..|mirrors|] == mirrors;
  }

  /** `AllDated` of a prefix one longer. */
  lemma AllDatedPrefix(mirrors: seq<Value>, name: string, fetch: string -> Result<Value>, stamp: Stamp, i: nat)
    requires i < |mirrors|
    ensures AllDated(mirrors[..i + 1], name, fetch, stamp) ==>
      && AllDated(mirrors[..i], name, fetch, stamp)
      && (Serves(mirrors, name, fetch, stamp, i) ==> Dated(Probe(mirrors[i], name, fetch, stamp).value.value.0))
  {
    if AllDated(mirrors[..i + 1], name, fetch, stamp) {
      assert mirrors[..i + 1][i] == mirrors[i];
      forall j | 0 <= j < i && Serves(mirrors[..i], name, fetch, stamp, j)
        ensures Dated(Probe(mirrors[..i][j], name, fetch, stamp).value.value.0)
      {
        assert mirrors[..i][j] == mirrors[..i + 1][j];
      }
    }
  }

  /** Mirror `k` serves `found`, every later mirror that serves a dict
      ranks no higher and meets a dated `found`, and when every served dict
      is dated `found` is the newest one. */
  ghost predicate Adopted(mirrors: seq<Value>, name: string, fetch: string -> Result<Value>, stamp: Stamp,
                          k: int, found: (string, map<string, Value>))
    requires 0 <= k < |mirrors|
  {
    var p := Probe(mirrors[k], name, fetch, stamp);
    && mirrors[k].VStr? && found.0 == mirrors[k].s + name
    && p.Ok? && p.value.Some? && p.value.value.0 == found.1
    && (forall j :: k < j < |mirrors| && Serves(mirrors, name, fetch, stamp, j) ==>
          Dated(found.1) && Probe(mirrors[j], name, fetch, stamp).value.value.1 <= p.value.value.1)
    && (AllDated(mirrors, name, fetch, stamp) ==> Newest(mirrors, name, fetch, stamp, k, found))
  }

  /** Mirror `k` serves `found` and ranks strictly above every mirror before
      it and at least as high as every mirror after it. */
  ghost predicate Newest(mirrors: seq<Value>, name: string, fetch: string -> Result<Value>, stamp: Stamp,
                         k: int, found: (string, map<string, Value>))
    requires 0 <= k < |mirrors|
  {
    var p := Probe(mirrors[k], name, fetch, stamp);
    && mirrors[k].VStr? && found.0 == mirrors[k].s + name
    && p.Ok? && p.value.Some? && p.value.value.0 == found.1
    && (forall j :: 0 <= j < |mirrors| && Serves(mirrors, name, fetch, stamp, j) ==>
          Probe(mirrors[j], name, fetch, stamp).value.value.1 <= p.value.value.1)
    && (forall j :: 0 <= j < k && Serves(mirrors, name, fetch, stamp, j) ==>
          Probe(mirrors[j], name, fetch, stamp).value.value.1 < p.value.value.1)
  }

  // ------------------------------------------------------------- saving

  /** `DictCache.save` stamps a dict in place with the save time before
      writing it; the stamped dict is what the caller then holds. */
  function Stamped(kind: Kind, data: Value, stampText: string): (r: Value)
    ensures kind.Dicts? && data.VDict? ==>
      (&& r.VDict? && r.m.Keys == data.m.Keys + {"__time__"}
       && r.m["__time__"] == VStr(stampText)
       && forall k :: k in data.m && k != "__time__" ==> r.m[k] == data.m[k])
    ensures !(kind.Dicts? && data.VDict?) ==> r == data
  {
    if kind.Dicts? && data.VDict? then VDict(data.m["__time__" := VStr(stampText)]) else data
  }

  /** `save(fl, data)` of the cache: stamp when it is a `DictCache`, then
      dump with the cache's keyword arguments.  Returns the value as the
      caller holds it afterwards. */
  method Save(c: Config, fm: Manager, disk: Disk, fl: string, data: Value, now: real, stampText: string)
    returns (r: Result<Value>)
    modifies disk
    ensures r.Ok? ==> r.value == Stamped(c.kind, data, stampText)
    ensures r.Ok? ==> ResolvePath(fm.root, fm.home, fl) in disk.files
    ensures r.Ok? && HandlerOf(fm, fl) == Some(JsonHandler) ==>
      Load(fm, disk.files, fl, [], map[]) == Ok(JsonView(Parse(Stamped(c.kind, data, stampText))))
    ensures HandlerOf(fm, fl) == Some(JsonHandler) ==>
      (&& r.Ok?
       && disk.files == old(disk.files)[ResolvePath(fm.root, fm.home, fl) :=
                                        Entry(JsonDoc(JsonView(Parse(Stamped(c.kind, data, stampText)))), now)])
  {
    var v := Stamped(c.kind, data, stampText);
    var d := Dump(fm, disk, fl, v, [], c.kwargs, now);
    if d.Err? {
      return Err(d.error);
    }
    r := Ok(v);
  }

  /** The stamped dict reads back with its stamp. */
  lemma StampReadsBack(m: map<string, Value>, stampText: string)
    ensures var v := JsonView(Parse(VDict(m["__time__" := VStr(stampText)])));
      v.VDict? && "__time__" in v.m && v.m["__time__"] == VStr(stampText)
  {
  }

  /** The file an adopted mirror copy `d` becomes: the copy stamped with
      the save time, dated with its own time when it has one and with the
      save time otherwise. */
  function CopyEntry(d: map<string, Value>, stamp: Stamp, now: real, stampText: string): Entry {
    var ts := ToTimestamp(DictGet(d, "__time__"), stamp);
    Entry(JsonDoc(JsonView(Parse(VDict(d["__time__" := VStr(stampText)])))),
          if ts.Ok? && ts.value.Some? then ts.value.value else now)
  }

  lemma UpdateTwice<K, V>(m: map<K, V>, k: K, a: V, b: V)
    ensures m[k := a][k := b] == m[k := b]
  {
  }

  /** The adoption step of `DictCache.tooOld` for a missing local file:
      save the newest mirror copy under the file's name and date it with the
      copy's own time when it has one. */
  method AdoptMirror(c: Config, fm: Manager, disk: Disk, fl: string, now: real, stampText: string,
                     fetch: string -> Result<Value>, stamp: Stamp) returns (r: Result<()>)
    requires c.kind.Dicts? && ResolvePath(fm.root, fm.home, fl) !in disk.files
    modifies disk
    ensures var path := ResolvePath(fm.root, fm.home, fl);
      r.Ok? && path !in disk.files ==> disk.files == old(disk.files)
    ensures var path := ResolvePath(fm.root, fm.home, fl);
      r.Ok? && path in disk.files && HandlerOf(fm, fl) == Some(JsonHandler) ==>
        disk.files[path].content.JsonDoc? && disk.files[path].content.json.VDict?
        && "__time__" in disk.files[path].content.json.m
        && disk.files[path].content.json.m["__time__"] == VStr(stampText)
    ensures var path := ResolvePath(fm.root, fm.home, fl);
      r.Ok? && path in disk.files && HandlerOf(fm, fl) == Some(JsonHandler) ==>
        exists k, found :: 0 <= k < |c.kind.mirror| && Adopted(c.kind.mirror, BaseName(path), fetch, stamp, k, found)
          && disk.files == old(disk.files)[path := CopyEntry(found.1, stamp, now, stampText)]
  {
    var path := ResolvePath(fm.root, fm.home, fl);
    var found := FindInMirror(c.kind.mirror, BaseName(path), fetch, stamp);
    if found.Err? {
      return Err(found.error);
    }
    if found.value.None? {
      return Ok(());
    }
    ghost var k :| 0 <= k < |c.kind.mirror| && Adopted(c.kind.mirror, BaseName(path), fetch, stamp, k, found.value.value);
    var data := found.value.value.1;
    var ts := ToTimestamp(DictGet(data, "__time__"), stamp);
    if ts.Err? {
      return Err(ts.error);
    }
    StampReadsBack(data, stampText);
    var stamped := VDict(data["__time__" := VStr(stampText)]);
    assert Stamped(c.kind, VDict(data), stampText) == stamped;
    ghost var files0 := disk.files;
    var saved := Save(c, fm, disk, fl, VDict(data), now, stampText);
    if saved.Err? {
      return Err(saved.error);
    }
    ghost var entry := CopyEntry(data, stamp, now, stampText);
    assert HandlerOf(fm, fl) == Some(JsonHandler) ==>
      disk.files == files0[path := Entry(entry.content, now)];
    if ts.value.Some? {
      if path !in disk.files {
        return Err(OtherError("FileNotFoundError"));
      }
      disk.files := disk.files[path := disk.files[path].(mtime := ts.value.value)];
      if HandlerOf(fm, fl) == Some(JsonHandler) {
        assert entry == Entry(entry.content, ts.value.value);
        UpdateTwice(files0, path, Entry(entry.content, now), entry);
      }
    } else {
      assert HandlerOf(fm, fl) == Some(JsonHandler) ==> Entry(entry.content, now) == entry;
    }
    r := Ok(());
  }

  /** `DictCache.tooOld(fl)`: when the local file is missing, adopt the
      newest mirror copy first; the age limit then applies as for any
      file. */
  method DictTooOld(c: Config, fm: Manager, disk: Disk, fl: Option<string>, now: real, stampText: string,
                    fetch: string -> Result<Value>, stamp: Stamp) returns (r: Result<bool>)
    requires c.kind.Dicts?
    modifies disk
    ensures fl.None? || c.reload ==> r == Ok(true) && disk.files == old(disk.files)
    ensures fl.Some? && !c.reload && ResolvePath(fm.root, fm.home, fl.value) in old(disk.files) ==>
      disk.files == old(disk.files)
    ensures fl.Some? && !c.reload && OsPath(fm, fl.value) == ResolvePath(fm.root, fm.home, fl.value)
            && OsPath(fm, fl.value) in old(disk.files) ==>
      r == Ok(TooOld(c, fm, old(disk.files), fl))
    ensures r == Ok(false) ==>
      (c.threshold.None? || (fl.Some? && OsPath(fm, fl.value) in disk.files
                             && disk.files[OsPath(fm, fl.value)].mtime >= c.threshold.value))
    ensures r.Ok? && fl.Some? && ResolvePath(fm.root, fm.home, fl.value) !in disk.files ==> r == Ok(true)
    ensures var path := if fl.Some? then ResolvePath(fm.root, fm.home, fl.value) else "";
      fl.Some? && r.Ok? && path !in old(disk.files) && path in disk.files
      && HandlerOf(fm, fl.value) == Some(JsonHandler) ==>
        disk.files[path].content.JsonDoc? && disk.files[path].content.json.VDict?
        && "__time__" in disk.files[path].content.json.m
        && disk.files[path].content.json.m["__time__"] == VStr(stampText)
    ensures var path := if fl.Some? then ResolvePath(fm.root, fm.home, fl.value) else "";
      fl.Some? && !c.reload && r.Ok? && path !in old(disk.files) && path in disk.files
      && HandlerOf(fm, fl.value) == Some(JsonHandler) ==>
        exists k, found :: 0 <= k < |c.kind.mirror| && Adopted(c.kind.mirror, BaseName(path), fetch, stamp, k, found)
          && disk.files == old(disk.files)[path := CopyEntry(found.1, stamp, now, stampText)]
    ensures fl.Some? && !c.reload && r.Ok? && OsPath(fm, fl.value) == ResolvePath(fm.root, fm.home, fl.value)
            && OsPath(fm, fl.value) in disk.files ==>
      r == Ok(TooOld(c, fm, disk.files, fl))
  {
    if fl.None? || c.reload {
      return Ok(true);
    }
    var path := ResolvePath(fm.root, fm.home, fl.value);
    if path !in disk.files {
      var adopted := AdoptMirror(c, fm, disk, fl.value, now, stampText, fetch, stamp);
      if adopted.Err? {
        return Err(adopted.error);
      }
    }
    if path !in disk.files {
      return Ok(true);
    }
    if c.threshold.None? {
      return Ok(false);
    }
    var os := OsPath(fm, fl.value);
    if os !in disk.files {
      return Err(OtherError("FileNotFoundError"));
    }
    r := Ok(disk.files[os].mtime < c.threshold.value);
  }

  /** An adopted copy dated before the threshold counts as too old. */
  lemma StaleCopyTooOld(c: Config, fm: Manager, files: map<string, Entry>, fl: string, d: map<string, Value>,
                        stamp: Stamp, now: real, stampText: string)
    requires !c.reload && c.threshold.Some? && OsPath(fm, fl) == ResolvePath(fm.root, fm.home, fl)
    requires var ts := ToTimestamp(DictGet(d, "__time__"), stamp);
      ts.Ok? && ts.value.Some? && ts.value.value < c.threshold.value
    ensures TooOld(c, fm, files[ResolvePath(fm.root, fm.home, fl) := CopyEntry(d, stamp, now, stampText)], Some(fl))
  {
  }

  // ---------------------------------------------------------- callCache

  /** A decorated call: `__call__` hands back the bare function when the
      cache skips; otherwise `callCache` names the file, returns a fresh
      non-`None` read without computing, and else computes, saving the value
      unless it is `None`.  `compute` is what the decorated function returns
      or raises; `computed` tells whether it was called. */
  method CallCache(c: Config, fm: Manager, disk: Disk, digest: Digest, slf: Value, args: seq<Value>,
                   kwargs: map<string, Value>, compute: Result<Value>, now: real, stampText: string,
                   fetch: string -> Result<Value>, stamp: Stamp) returns (r: Result<Value>, computed: bool)
    modifies disk
    ensures c.skip ==> r == compute && computed && disk.files == old(disk.files)
    ensures !computed && r.Ok? ==> r.value != VNone
    ensures var name := FileName(c, fm.format, digest, slf, args, kwargs);
      (&& !c.skip && !c.kind.Dicts? && name.Ok? && !TooOld(c, fm, old(disk.files), Some(name.value))
       && Load(fm, old(disk.files), name.value, [], c.kwargs).Ok?
       && Load(fm, old(disk.files), name.value, [], c.kwargs).value != VNone) ==>
        && r == Load(fm, old(disk.files), name.value, [], c.kwargs)
        && !computed && disk.files == old(disk.files)
    ensures var name := FileName(c, fm.format, digest, slf, args, kwargs);
      (&& !c.skip && !c.kind.Dicts? && name.Ok?
       && (TooOld(c, fm, old(disk.files), Some(name.value))
           || Load(fm, old(disk.files), name.value, [], c.kwargs) == Ok(VNone))) ==> computed
    ensures var name := FileName(c, fm.format, digest, slf, args, kwargs);
      (&& !c.skip && c.kind.Dicts? && name.Ok? && !c.reload
       && OsPath(fm, name.value) == ResolvePath(fm.root, fm.home, name.value)
       && OsPath(fm, name.value) in old(disk.files) && !TooOld(c, fm, old(disk.files), Some(name.value))
       && Load(fm, old(disk.files), name.value, [], c.kwargs).Ok?
       && Load(fm, old(disk.files), name.value, [], c.kwargs).value != VNone) ==>
        && r == Load(fm, old(disk.files), name.value, [], c.kwargs)
        && !computed && disk.files == old(disk.files)
    ensures var name := FileName(c, fm.format, digest, slf, args, kwargs);
      (&& !c.skip && c.kind.Dicts? && name.Ok?
       && (|| c.reload
           || (&& OsPath(fm, name.value) == ResolvePath(fm.root, fm.home, name.value)
               && OsPath(fm, name.value) in old(disk.files)
               && (|| TooOld(c, fm, old(disk.files), Some(name.value))
                   || Load(fm, old(disk.files), name.value, [], c.kwargs) == Ok(VNone))))) ==> computed
    ensures var name := FileName(c, fm.format, digest, slf, args, kwargs);
      (&& !c.skip && name.Ok? && !computed && r.Ok?
       && OsPath(fm, name.value) == ResolvePath(fm.root, fm.home, name.value)) ==>
        !TooOld(c, fm, disk.files, Some(name.value))
    ensures !c.skip && !computed && r.Ok? ==>
      FileName(c, fm.format, digest, slf, args, kwargs).Ok?
      && r == Load(fm, disk.files, FileName(c, fm.format, digest, slf, args, kwargs).value, [], c.kwargs)
    ensures computed && compute.Err? ==> r == compute
    ensures computed && compute == Ok(VNone) ==> r == Ok(VNone)
    ensures computed && compute == Ok(VNone) && !c.kind.Dicts? ==> disk.files == old(disk.files)
    ensures !c.skip && computed && compute.Ok? && compute.value != VNone && r.Ok? ==>
      && r.value == Stamped(c.kind, compute.value, stampText)
      && FileName(c, fm.format, digest, slf, args, kwargs).Ok?
      && var fl := FileName(c, fm.format, digest, slf, args, kwargs).value;
         HandlerOf(fm, fl) == Some(JsonHandler) ==>
           Load(fm, disk.files, fl, [], map[]) == Ok(JsonView(Parse(r.value)))
  {
    if c.skip {
      return compute, true;
    }
    var name := FileName(c, fm.format, digest, slf, args, kwargs);
    if name.Err? {
      return Err(name.error), false;
    }
    var fl := name.value;
    var stale := true;
    if c.kind.Dicts? {
      var o := DictTooOld(c, fm, disk, Some(fl), now, stampText, fetch, stamp);
      if o.Err? {
        return Err(o.error), false;
      }
      stale := o.value;
    } else {
      stale := TooOld(c, fm, disk.files, Some(fl));
    }
    if !stale {
      var data := Load(fm, disk.files, fl, [], c.kwargs);
      if data.Err? {
        return data, false;
      }
      if data.value != VNone {
        return data, false;
      }
    }
    computed := true;
    if compute.Err? || compute.value == VNone {
      return compute, true;
    }
    var saved := Save(c, fm, disk, fl, compute.value, now, stampText);
    if saved.Err? {
      return Err(saved.error), true;
    }
    r := saved;
  }
}
