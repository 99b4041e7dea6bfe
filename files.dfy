/**
 * core/filemanager.py: path resolution under a root directory, extension
 * normalisation and dispatch to the JSON and text handlers, the
 * JSON-preparation pass `__parse`, and the file effects of `dump` and
 * `dwn_json`.  The file system is a map from resolved path to content and
 * modification time; a JSON file holds the JSON value it encodes, a text
 * file its text.
 */
module Files {

  import opened Values
  import opened Text

  /** `str.format(template, *args, **kwargs)`, which may raise. */
  type Formatter = (string, seq<Value>, map<string, Value>) -> Result<string>

  datatype Content = JsonDoc(json: Value) | TextDoc(text: string)

  datatype Entry = Entry(content: Content, mtime: real)

  /** The file system, keyed by resolved path. */
  class Disk {
    var files: map<string, Entry>

    constructor (files: map<string, Entry>)
      ensures this.files == files
    {
      this.files := files;
    }
  }

  /** A `FileManager` and what it relies on: the root for relative paths,
      the user's home for `~`, `str.format`, and the JSON text codec used
      only when a JSON file holds text the model did not write, or a text
      read meets a JSON document. */
  datatype Manager = Manager(
    root: string,
    home: string,
    format: Formatter,
    decode: string -> Result<Value>,
    encode: Value -> string)

  // ---------------------------------------------------------- resolve_path

  predicate IsAbsolute(p: string) {
    p != [] && p[0] == '/'
  }

  /** `Path.expanduser()` for the current user: `~` and `~/...`. */
  function ExpandUser(home: string, p: string): string {
    if p == "~" then home
    else if |p| >= 2 && p[..2] == "~/" then home + p[1..]
    else p
  }

  /** `resolve_path(file)`: expand a leading `~`, keep absolute paths, join
      relative ones under the root. */
  function ResolvePath(root: string, home: string, file: string): (r: string)
    ensures IsAbsolute(file) ==> r == file
    ensures IsAbsolute(root) && IsAbsolute(home) ==> IsAbsolute(r)
    ensures file != [] && file[0] != '~' && !IsAbsolute(file) ==> r == root + "/" + file
  {
    var f := if file != [] && file[0] == '~' then ExpandUser(home, file) else file;
    if IsAbsolute(f) then f
    else if f == "" then root
    else root + "/" + f
  }

  /** Resolving a resolved path changes nothing, as `dwn_json` relies on when
      it hands an already resolved target to `dump`. */
  lemma ResolveIdempotent(root: string, home: string, file: string)
    requires IsAbsolute(root) && IsAbsolute(home)
    ensures ResolvePath(root, home, ResolvePath(root, home, file)) == ResolvePath(root, home, file)
  {
  }

  // ------------------------------------------------------ names and suffix

  /** Index of the last `c` in `s`, or -1. */
  function LastIndexOf(s: string, c: char): (i: int)
    ensures -1 <= i < |s|
    ensures i >= 0 ==> s[i] == c
    ensures forall j :: i < j < |s| ==> s[j] != c
  {
    if s == [] then -1
    else if s[|s| - 1] == c then |s| - 1
    else LastIndexOf(s[..|s| - 1], c)
  }

  /** `Path(p).name`: the part after the last `/`. */
  function BaseName(p: string): (r: string)
    ensures '/' !in r
  {
    p[LastIndexOf(p, '/') + 1..]
  }

  /** `Path(p).suffix`: from the last dot of the name, when that dot is
      neither the first nor the last character of the name. */
  function Suffix(p: string): (r: string)
    ensures r == [] || (r[0] == '.' && |r| >= 2 && '.' !in r[1..] && '/' !in r)
  {
    var name := BaseName(p);
    var i := LastIndexOf(name, '.');
    if 0 < i < |name| - 1 then
      assert forall j :: 1 <= j < |name[i..]| ==> name[i..][j] == name[i + j];
      name[i..]
    else ""
  }

  // --------------------------------------------------------- normalize_ext

  /** `normalize_ext(ext)` */
  function NormalizeExt(ext: string): (r: string)
    ensures r == [] || r[0] != '.'
  {
    var e := Lower(LStripChar(ext, '.'));
    assert e != [] ==> e[0] == LowerChar(LStripChar(ext, '.')[0]);
    Alias(e)
  }

  /** The aliases `normalize_ext` rewrites: `js` to `json`, `sql`, `gql`
      and `log` to `txt`. */
  function Alias(e: string): (r: string)
    ensures (e == [] || e[0] != '.') ==> (r == [] || r[0] != '.')
  {
    if e == "js" then "json"
    else if e == "sql" || e == "gql" || e == "log" then "txt"
    else e
  }

  /** No ASCII capital letter in `s`. */
  predicate NoUpper(s: string) {
    forall i :: 0 <= i < |s| ==> !('A' <= s[i] <= 'Z')
  }

  lemma LowerNoUpper(s: string)
    requires NoUpper(s)
    ensures Lower(s) == s
  {
  }

  lemma LowerHasNoUpper(s: string)
    ensures NoUpper(Lower(s))
  {
  }

  lemma LStripCharNone(s: string, ch: char)
    requires s == [] || s[0] != ch
    ensures LStripChar(s, ch) == s
  {
  }

  /** What `normalize_ext` produces: no leading dot, lower case, none of
      the aliases it rewrites. */
  predicate NormalForm(e: string) {
    && (e == [] || e[0] != '.') && NoUpper(e)
    && e != "js" && e != "sql" && e != "gql" && e != "log"
  }

  /** An extension already in normal form is left alone. */
  lemma NormalizeExtFixed(e: string)
    requires NormalForm(e)
    ensures NormalizeExt(e) == e
  {
    LStripCharNone(e, '.');
    LowerNoUpper(e);
  }

  lemma AliasNormal(e: string)
    requires (e == [] || e[0] != '.') && NoUpper(e)
    ensures NormalForm(Alias(e))
  {
    if e == "js" {
      assert NoUpper("json");
    } else if e == "sql" || e == "gql" || e == "log" {
      assert NoUpper("txt");
    }
  }

  lemma NormalizeExtNormal(ext: string)
    ensures NormalForm(NormalizeExt(ext))
  {
    var s := LStripChar(ext, '.');
    LowerHasNoUpper(s);
    AliasNormal(Lower(s));
  }

  /** Normalising a normalised extension changes nothing. */
  lemma NormalizeExtIdempotent(ext: string)
    ensures NormalizeExt(NormalizeExt(ext)) == NormalizeExt(ext)
  {
    NormalizeExtNormal(ext);
    NormalizeExtFixed(NormalizeExt(ext));
  }

  datatype Handler = JsonHandler | TxtHandler

  /** The `load_<ext>` / `dump_<ext>` method found for a normalised
      extension. */
  function HandlerFor(ext: string): (h: Option<Handler>)
    ensures h == Some(JsonHandler) <==> ext == "json"
    ensures h == Some(TxtHandler) <==> ext == "txt"
  {
    if ext == "json" then Some(JsonHandler)
    else if ext == "txt" then Some(TxtHandler)
    else None
  }

  /** The handler `load` and `dump` use for a path: `.json` and `.js` files
      are JSON, `.txt`, `.sql`, `.gql` and `.log` files text, whatever the
      case and the dots. */
  lemma HandlerForSuffix(ext: string)
    ensures HandlerFor(NormalizeExt(ext)).Some? <==>
      Lower(LStripChar(ext, '.')) in {"json", "js", "txt", "sql", "gql", "log"}
  {
    AliasHandled(Lower(LStripChar(ext, '.')));
  }

  lemma AliasHandled(e: string)
    ensures HandlerFor(Alias(e)).Some? <==> e in {"json", "js", "txt", "sql", "gql", "log"}
  {
  }

  // ----------------------------------------------------------------- myex

  /** `myex(e, msg)` as written: the test `isinstance(largs, str)` is on the
      list itself, never a string, so `msg` is always appended. */
  function MyExAsWritten(args: seq<Value>, msg: string): seq<Value> {
    args + [VStr(msg)]
  }

  /** The evident intent: a single string argument gets `msg` appended to
      it; other argument lists get `msg` as a new argument. */
  function MyEx(args: seq<Value>, msg: string): (r: seq<Value>)
    ensures |args| == 1 && args[0].VStr? ==> r == [VStr(args[0].s + " " + msg)]
    ensures r != MyExAsWritten(args, msg) <==> |args| == 1 && args[0].VStr?
    ensures r != [] && r[|r| - 1].VStr? && EndsWith(r[|r| - 1].s, msg)
  {
    if |args| == 1 && args[0].VStr? then [VStr(args[0].s + " " + msg)] else args + [VStr(msg)]
  }

  /** The decoder's one-message exception gains a second argument instead
      of the path being added to its message. */
  lemma MyExAsWrittenAppends(m: string, path: string)
    ensures MyExAsWritten([VStr(m)], path) == [VStr(m), VStr(path)]
    ensures MyEx([VStr(m)], path) == [VStr(m + " " + path)]
    ensures MyExAsWritten([VStr(m)], path) != MyEx([VStr(m)], path)
  {
  }

  // ---------------------------------------------------------------- __parse

  /** `__parse(obj)`: named tuples and dataclasses become dicts, lists,
      tuples and sets become tuples, dict values are parsed. */
  function Parse(v: Value): Value
    decreases v
  {
    match v
    case VRecord(f) => VDict(map k | k in f :: Parse(f[k]))
    case VList(xs) => VTuple(seq(|xs|, i requires 0 <= i < |xs| => Parse(xs[i])))
    case VTuple(xs) => VTuple(seq(|xs|, i requires 0 <= i < |xs| => Parse(xs[i])))
    case VSet(xs) => VTuple(seq(|xs|, i requires 0 <= i < |xs| => Parse(xs[i])))
    case VDict(m) => VDict(map k | k in m :: Parse(m[k]))
    case _ => v
  }

  /** No list, set or record anywhere in the value. */
  predicate Parsed(v: Value) {
    match v
    case VRecord(_) => false
    case VList(_) => false
    case VSet(_) => false
    case VTuple(xs) => forall i :: 0 <= i < |xs| ==> Parsed(xs[i])
    case VDict(m) => forall k :: k in m ==> Parsed(m[k])
    case _ => true
  }

  /** `__parse` yields only tuples, dicts and scalars, and leaves such a
      value as it is; so it is idempotent. */
  lemma {:induction false} ParseShape(v: Value)
    ensures Parsed(Parse(v))
    ensures Parsed(v) ==> Parse(v) == v
    decreases v
  {
    match v
    case VRecord(f) =>
      forall k | k in f ensures Parsed(Parse(f[k])) { ParseShape(f[k]); }
    case VList(xs) =>
      forall i | 0 <= i < |xs| ensures Parsed(Parse(xs[i])) { ParseShape(xs[i]); }
    case VSet(xs) =>
      forall i | 0 <= i < |xs| ensures Parsed(Parse(xs[i])) { ParseShape(xs[i]); }
    case VTuple(xs) =>
      forall i | 0 <= i < |xs| ensures Parsed(Parse(xs[i])) && (Parsed(xs[i]) ==> Parse(xs[i]) == xs[i]) {
        ParseShape(xs[i]);
      }
      if Parsed(v) {
        assert Parse(v).items == xs;
      }
    case VDict(m) =>
      forall k | k in m ensures Parsed(Parse(m[k])) && (Parsed(m[k]) ==> Parse(m[k]) == m[k]) {
        ParseShape(m[k]);
      }
      if Parsed(v) {
        assert Parse(v).m == m;
      }
    case _ =>
  }

  lemma ParseIdempotent(v: Value)
    ensures Parse(Parse(v)) == Parse(v)
  {
    ParseShape(v);
    ParseShape(Parse(v));
  }

  // ------------------------------------------------------------------ JSON

  /** What reading back the JSON text of a value gives: arrays come back as
      lists, objects as dicts. */
  function JsonView(v: Value): Value
    decreases v
  {
    match v
    case VRecord(f) => VDict(map k | k in f :: JsonView(f[k]))
    case VList(xs) => VList(seq(|xs|, i requires 0 <= i < |xs| => JsonView(xs[i])))
    case VTuple(xs) => VList(seq(|xs|, i requires 0 <= i < |xs| => JsonView(xs[i])))
    case VSet(xs) => VList(seq(|xs|, i requires 0 <= i < |xs| => JsonView(xs[i])))
    case VDict(m) => VDict(map k | k in m :: JsonView(m[k]))
    case _ => v
  }

  /** A value JSON can hold as it is: scalars, lists and dicts. */
  predicate IsJson(v: Value) {
    match v
    case VRecord(_) => false
    case VTuple(_) => false
    case VSet(_) => false
    case VList(xs) => forall i :: 0 <= i < |xs| ==> IsJson(xs[i])
    case VDict(m) => forall k :: k in m ==> IsJson(m[k])
    case _ => true
  }

  /** What a JSON dump writes is a JSON value, and dumping a JSON value
      writes that value. */
  lemma {:induction false} JsonShape(v: Value)
    ensures IsJson(JsonView(v))
    ensures IsJson(v) ==> JsonView(Parse(v)) == v
    decreases v
  {
    match v
    case VRecord(f) =>
      forall k | k in f ensures IsJson(JsonView(f[k])) { JsonShape(f[k]); }
    case VList(xs) =>
      forall i | 0 <= i < |xs| ensures IsJson(JsonView(xs[i])) && (IsJson(xs[i]) ==> JsonView(Parse(xs[i])) == xs[i]) {
        JsonShape(xs[i]);
      }
      if IsJson(v) {
        assert JsonView(Parse(v)).items == xs;
      }
    case VTuple(xs) =>
      forall i | 0 <= i < |xs| ensures IsJson(JsonView(xs[i])) { JsonShape(xs[i]); }
    case VSet(xs) =>
      forall i | 0 <= i < |xs| ensures IsJson(JsonView(xs[i])) { JsonShape(xs[i]); }
    case VDict(m) =>
      forall k | k in m ensures IsJson(JsonView(m[k])) && (IsJson(m[k]) ==> JsonView(Parse(m[k])) == m[k]) {
        JsonShape(m[k]);
      }
      if IsJson(v) {
        assert JsonView(Parse(v)).m == m;
      }
    case _ =>
  }

  /** A loaded JSON file dumped again holds the same value. */
  lemma JsonDumpStable(v: Value)
    ensures JsonView(Parse(JsonView(Parse(v)))) == JsonView(Parse(v))
  {
    JsonShape(Parse(v));
    JsonShape(JsonView(Parse(v)));
  }

  // ---------------------------------------------------------- load and dump

  /** The handler `load`/`dump` dispatch to for a file. */
  function HandlerOf(fm: Manager, file: string): Option<Handler> {
    HandlerFor(NormalizeExt(Suffix(ResolvePath(fm.root, fm.home, file))))
  }

  /** `load_json`: positional arguments are refused by `json.load`; a
      decoding failure gets the path added by `myex`. */
  function LoadJson(fm: Manager, path: string, c: Content, args: seq<Value>): Result<Value> {
    if args != [] then Err(TypeError)
    else match c
      case JsonDoc(v) => Ok(v)
      case TextDoc(t) =>
        match fm.decode(t)
        case Err(JsonDecodeError(a)) => Err(JsonDecodeError(MyEx(a, path)))
        case r => r
  }

  /** `load_txt`: the text, formatted when arguments are given. */
  function LoadTxt(fm: Manager, c: Content, args: seq<Value>, kwargs: map<string, Value>): Result<Value> {
    var txt := match c case TextDoc(t) => t case JsonDoc(v) => fm.encode(v);
    if args != [] || kwargs != map[] then
      match fm.format(txt, args, kwargs)
      case Ok(t) => Ok(VStr(t))
      case Err(e) => Err(e)
    else Ok(VStr(txt))
  }

  /** `load(file, *args, **kwargs)` */
  function Load(fm: Manager, files: map<string, Entry>, file: string,
                args: seq<Value>, kwargs: map<string, Value>): (r: Result<Value>)
    ensures HandlerOf(fm, file).None? ==> r.Err?
    ensures HandlerOf(fm, file).Some? && ResolvePath(fm.root, fm.home, file) !in files ==>
      r == Err(OtherError("FileNotFoundError"))
  {
    var p := ResolvePath(fm.root, fm.home, file);
    match HandlerOf(fm, file)
    case None => Err(OtherError("Exception"))
    case Some(h) =>
      if p !in files then Err(OtherError("FileNotFoundError"))
      else if h == JsonHandler then LoadJson(fm, p, files[p].content, args)
      else LoadTxt(fm, files[p].content, args, kwargs)
  }

  lemma LoadStoredJson(fm: Manager, files: map<string, Entry>, file: string, v: Value, now: real)
    requires HandlerOf(fm, file) == Some(JsonHandler)
    ensures Load(fm, files[ResolvePath(fm.root, fm.home, file) := Entry(JsonDoc(v), now)], file, [], map[]) == Ok(v)
  {
  }

  lemma LoadStoredText(fm: Manager, files: map<string, Entry>, file: string, t: string, now: real)
    requires HandlerOf(fm, file) == Some(TxtHandler)
    ensures Load(fm, files[ResolvePath(fm.root, fm.home, file) := Entry(TextDoc(t), now)], file, [], map[]) == Ok(VStr(t))
  {
    var p := ResolvePath(fm.root, fm.home, file);
    var f := files[p := Entry(TextDoc(t), now)];
    assert p in f && f[p].content == TextDoc(t);
    LoadTxtPlain(fm, t);
  }

  lemma LoadTxtPlain(fm: Manager, t: string)
    ensures LoadTxt(fm, TextDoc(t), [], map[]) == Ok(VStr(t))
  {
  }

  /** Loading what was just dumped: a JSON file gives back the JSON view of
      the parsed object, a text file the text. */
  lemma DumpThenLoad(fm: Manager, files: map<string, Entry>, file: string, obj: Value, now: real)
    ensures var p := ResolvePath(fm.root, fm.home, file);
      HandlerOf(fm, file) == Some(JsonHandler) ==>
        Load(fm, files[p := Entry(JsonDoc(JsonView(Parse(obj))), now)], file, [], map[]) == Ok(JsonView(Parse(obj)))
    ensures var p := ResolvePath(fm.root, fm.home, file);
      HandlerOf(fm, file) == Some(TxtHandler) && obj.VStr? ==>
        Load(fm, files[p := Entry(TextDoc(obj.s), now)], file, [], map[]) == Ok(obj)
  {
    if HandlerOf(fm, file) == Some(JsonHandler) {
      LoadStoredJson(fm, files, file, JsonView(Parse(obj)), now);
    } else if HandlerOf(fm, file) == Some(TxtHandler) && obj.VStr? {
      LoadStoredText(fm, files, file, obj.s, now);
    }
  }

  /** `dump(file, obj, *args, **kwargs)`: JSON files receive the parsed
      object; text files the text, formatted when arguments are given.  A
      file opened for writing is emptied even when the write then fails. */
  method Dump(fm: Manager, disk: Disk, file: string, obj: Value,
              args: seq<Value>, kwargs: map<string, Value>, now: real) returns (r: Result<()>)
    modifies disk
    ensures HandlerOf(fm, file).None? ==> r.Err? && disk.files == old(disk.files)
    ensures HandlerOf(fm, file) == Some(JsonHandler) && args != [] ==>
      r == Err(TypeError) && disk.files == old(disk.files)[ResolvePath(fm.root, fm.home, file) := Entry(TextDoc(""), now)]
    ensures HandlerOf(fm, file) == Some(JsonHandler) && args == [] ==>
      r == Ok(()) && disk.files == old(disk.files)[ResolvePath(fm.root, fm.home, file) := Entry(JsonDoc(JsonView(Parse(obj))), now)]
    ensures HandlerOf(fm, file) == Some(TxtHandler) && (args != [] || kwargs != map[]) && !obj.VStr? ==>
      r == Err(AttributeError) && disk.files == old(disk.files)
    ensures HandlerOf(fm, file) == Some(TxtHandler) && (args != [] || kwargs != map[]) && obj.VStr? ==>
      match fm.format(obj.s, args, kwargs)
      case Err(e) => r == Err(e) && disk.files == old(disk.files)
      case Ok(t) => r == Ok(()) && disk.files == old(disk.files)[ResolvePath(fm.root, fm.home, file) := Entry(TextDoc(t), now)]
    ensures HandlerOf(fm, file) == Some(TxtHandler) && args == [] && kwargs == map[] && obj.VStr? ==>
      r == Ok(()) && disk.files == old(disk.files)[ResolvePath(fm.root, fm.home, file) := Entry(TextDoc(obj.s), now)]
    ensures HandlerOf(fm, file) == Some(TxtHandler) && args == [] && kwargs == map[] && !obj.VStr? ==>
      r == Err(TypeError) && disk.files == old(disk.files)[ResolvePath(fm.root, fm.home, file) := Entry(TextDoc(""), now)]
    ensures r.Ok? && HandlerOf(fm, file) == Some(JsonHandler) ==>
      Load(fm, disk.files, file, [], map[]) == Ok(JsonView(Parse(obj)))
    ensures r.Ok? && HandlerOf(fm, file) == Some(TxtHandler) && args == [] && kwargs == map[] ==>
      Load(fm, disk.files, file, [], map[]) == Ok(obj)
  {
    var p := ResolvePath(fm.root, fm.home, file);
    var h := HandlerOf(fm, file);
    if h.None? {
      return Err(OtherError("Exception"));
    }
    if h.value == JsonHandler {
      LoadStoredJson(fm, disk.files, file, JsonView(Parse(obj)), now);
      r := DumpJson(disk, p, obj, args, now);
    } else {
      if obj.VStr? {
        LoadStoredText(fm, disk.files, file, obj.s, now);
      }
      r := DumpText(fm, disk, p, obj, args, kwargs, now);
    }
  }

  /** The JSON branch of `dump`: `json.dump` takes no extra positional
      arguments. */
  method DumpJson(disk: Disk, p: string, obj: Value, args: seq<Value>, now: real) returns (r: Result<()>)
    modifies disk
    ensures args != [] ==> r == Err(TypeError) && disk.files == old(disk.files)[p := Entry(TextDoc(""), now)]
    ensures args == [] ==> r == Ok(()) && disk.files == old(disk.files)[p := Entry(JsonDoc(JsonView(Parse(obj))), now)]
  {
    if args != [] {
      disk.files := disk.files[p := Entry(TextDoc(""), now)];
      return Err(TypeError);
    }
    disk.files := disk.files[p := Entry(JsonDoc(JsonView(Parse(obj))), now)];
    r := Ok(());
  }

  /** The text branch of `dump`: formatting happens before the file is
      opened; writing a non-string fails once the file is emptied. */
  method DumpText(fm: Manager, disk: Disk, p: string, obj: Value, args: seq<Value>,
                  kwargs: map<string, Value>, now: real) returns (r: Result<()>)
    modifies disk
    ensures (args != [] || kwargs != map[]) && !obj.VStr? ==> r == Err(AttributeError) && disk.files == old(disk.files)
    ensures (args != [] || kwargs != map[]) && obj.VStr? ==>
      match fm.format(obj.s, args, kwargs)
      case Err(e) => r == Err(e) && disk.files == old(disk.files)
      case Ok(t) => r == Ok(()) && disk.files == old(disk.files)[p := Entry(TextDoc(t), now)]
    ensures args == [] && kwargs == map[] && obj.VStr? ==>
      r == Ok(()) && disk.files == old(disk.files)[p := Entry(TextDoc(obj.s), now)]
    ensures args == [] && kwargs == map[] && !obj.VStr? ==>
      r == Err(TypeError) && disk.files == old(disk.files)[p := Entry(TextDoc(""), now)]
  {
    var txt := obj;
    if args != [] || kwargs != map[] {
      if !obj.VStr? {
        return Err(AttributeError);
      }
      var f := fm.format(obj.s, args, kwargs);
      if f.Err? {
        return Err(f.error);
      }
      txt := VStr(f.value);
    }
    if !txt.VStr? {
      disk.files := disk.files[p := Entry(TextDoc(""), now)];
      return Err(TypeError);
    }
    disk.files := disk.files[p := Entry(TextDoc(txt.s), now)];
    r := Ok(());
  }

  /** `dwn_json(url, target, default)` with the outcome of `safe_get_json`
      on `url` as input: the fetched JSON, or `default` when the fetch gives
      `None`, is dumped to the target and returned. */
  method DwnJson(fm: Manager, disk: Disk, fetched: Result<Value>, target: string,
                 default: Value, now: real) returns (r: Result<Value>)
    requires IsAbsolute(fm.root) && IsAbsolute(fm.home)
    modifies disk
    ensures fetched.Err? ==> r == Err(fetched.error) && disk.files == old(disk.files)
    ensures r.Ok? ==> fetched.Ok? && r.value == (if fetched.value == VNone then default else fetched.value)
    ensures r.Ok? && HandlerOf(fm, target) == Some(JsonHandler) ==>
      Load(fm, disk.files, target, [], map[]) == Ok(JsonView(Parse(r.value)))
    ensures r.Ok? && HandlerOf(fm, target) == Some(JsonHandler) ==>
      disk.files == old(disk.files)[ResolvePath(fm.root, fm.home, target) := Entry(JsonDoc(JsonView(Parse(r.value))), now)]
    ensures fetched.Ok? && HandlerOf(fm, target) == Some(JsonHandler) ==> r.Ok?
  {
    var path := ResolvePath(fm.root, fm.home, target);
    if fetched.Err? {
      return Err(fetched.error);
    }
    var json := fetched.value;
    if json == VNone {
      json := default;
    }
    ResolveIdempotent(fm.root, fm.home, target);
    var d := Dump(fm, disk, path, json, [], map[], now);
    if d.Err? {
      return Err(d.error);
    }
    r := Ok(json);
  }
}
