# sql-imdb core, modelled in Dafny

This project models the core library of `sql-imdb`, the tool that builds an
SQLite database of films from the IMDb datasets, OMDb and Wikidata. It
covers nine modules:

- `core/util.py`: chunking, de-duplication, splitting, and safe string and number conversion.
- `core/dblite.py`: the buffered SQLite writer.
- `core/cache.py`: the file cache decorators, with staleness checks and mirror adoption.
- `core/req.py`: HTTP bodies with a memo table, bounded retries and JSON decoding.
- `core/tsv.py`: the IMDb TSV field parser and row streams.
- `core/filemanager.py`: path resolution, extension dispatch, load and dump.
- `core/git.py`: the remote URL, the GitHub page and the committer mail.
- `core/imdb.py`: the OMDb client, with its API-key table, activation switch, country merge and scraping.
- `core/wiki.py`: the Wikidata client, with its adaptive chunked retry loop, the SPARQL answer shape check and row post-processing.

There is one Dafny module per source file, plus two shared modules:

- `Values` (`values.dfy`) holds the Python values the code passes around (`None`, bool, int, float as an exact real, str, list, tuple, dict), the exceptions it raises, and `Option`/`Result`.
- `Text` (`text.dfy`) holds the string built-ins the code relies on: `strip`, whitespace collapsing, `split`, `lower` on ASCII letters, `isdecimal`, `sorted` on strings and ints, and `" ".join`.

The outside world is passed in as parameters or state:

- The environment is a map.
- Git's output is a function of its arguments.
- The network is a function from request number to outcome (a body or an exception).
- A SPARQL endpoint is a function from query number and chunk to an answer.
- The clock is a function from round number to time.
- `str.format`, `sha256_hash`, `to_timestamp`'s date parsing and `json.loads` are uninterpreted function parameters.
- The file system is a `Disk` object. Its `files` map takes a path to the stored value and its modification time.
- An SQLite connection is the append-only log of statements and batches sent to it.
- Sleeps and calls appear as events in logs that the methods extend.

Objects whose fields the source changes in place are classes: `DBlite.Writer`, `Req.Client`, `Imdb.Client` and `Files.Disk`. Their methods state their new state in terms of the old one. Where that is not the whole state, "## Left out" says so.

## Model

| member | source | states |
|---|---|---|
| Util.Elems | core/util.py:34-39 | the set of a sequence holds exactly its elements |
| Util.IterChunk | core/util.py:59-67 | the chunks concatenate back to the input in order and none is empty; for size ≥ 1, every chunk but the last has exactly `size` items and none has more; for size ≤ 0, a non-empty input comes back as one chunk; no input gives no chunks |
| Util.Uniq | core/util.py:34-39 | the loop computes the first-occurrence list of the non-blank strings |
| Util.UniqOfMembers | core/util.py:37 | a string is in the result iff it appears among the arguments and is not `''` (`None` never is) |
| Util.UniqOfDistinct | core/util.py:37-38 | the result has no duplicates |
| Util.UniqOfOrder | core/util.py:36-38 | the result keeps the order of each string's first occurrence |
| Util.TpSplitSpec | core/util.py:42-46 | `None` gives `()`; otherwise the pieces are exactly the non-empty pieces of the split around the separator and its surrounding whitespace, with no repeats and no separator inside a piece |
| Util.TpSplitNoSeparator | core/util.py:45-46 | a string without the separator comes back as itself, or as `()` when it is empty |
| Util.Cleaned | core/util.py:28 | the result is exactly the whitespace-separated words of the input joined by single spaces: single spaces only, no space at either end, the same visible characters; already clean text is unchanged |
| Util.SafeStr | core/util.py:25-31 | non-strings give the default; a string gives its words joined by single spaces, or the default when that is `''` or `'N/A'`; clean input comes back unchanged |
| Util.SafeNum | core/util.py:7-22 | numbers pass through; non-strings and blank strings give the default; any other string gives the default or a non-negative number |
| Util.ReadNumber | core/util.py:15-22 | the three string forms give only non-negative numbers, and `''` gives none |
| Util.SafeNumOfStripped | core/util.py:12-22 | a stripped string that reads as a number gives that number |
| Util.SafeNumDecimal | core/util.py:15-16 | a decimal string gives its integer value |
| Util.SafeNumDigits | core/util.py:15-16 | the decimal text of any `n` reads back as `n` |
| Util.SafeNumMinutesOf | core/util.py:19-21 | `"<digits> min"` gives the integer of the digits |
| Util.SafeNumMinutes | core/util.py:19-21 | `"<n> min"` reads back as `n` for every `n` |
| Util.EnvLookupAt | core/util.py:49-56 | when the i-th name is the first one set to a non-blank value, the result is that value stripped |
| Util.EnvLookupUnset | core/util.py:49-56 | when no listed name is set to a non-blank value, the result is the default |
| Util.GetEnv | core/util.py:49-56 | the search loop returns what the lookup specification gives |
| Text.Strip | core/util.py:12 | the result has no space at either end, the same visible characters, and is a slice of the input; text with no outer space is unchanged |
| Text.SplitWs | core/imdb.py:148 | `str.split()` gives only non-empty words without spaces |
| Text.SplitWsJoin | core/imdb.py:148 | splitting a space-joined list of words gives the words back |
| Text.SplitAroundNoSep | core/tsv.py:45 | no piece of `re.split(r'\s*,\s*', s)` contains the separator |
| Text.SplitAroundAbsent | core/tsv.py:45 | text without the separator is one piece, itself |
| Text.MatchTryTight | core/tsv.py:45 | where the separator has no blank beside it, the pattern matches exactly at the separator |
| Text.SplitFromJoin | core/tsv.py:45 | the pieces split from a position join back with the separator to the rest of the text |
| Text.SplitAroundJoin | core/tsv.py:45 | when no blank touches a separator, joining the pieces with the separator gives the text back |
| Text.SortedStrings | core/imdb.py:137 | `sorted` of a set of strings is strictly ascending and holds exactly the set |
| Text.Lower | core/filemanager.py:74 | `lower` on ASCII: A–Z map to a–z one character at a time, everything else is kept, so the length is kept |
| Text.LStripChar | core/filemanager.py:73 | `lstrip(c)` removes exactly the leading run of `c` |
| Text.RStripChar | core/git.py:35 | `rstrip(c)` removes exactly the trailing run of `c` |
| DBlite.GW | core/dblite.py:13-19 | no values give `None`, one gives `"= ?"`, and several give `"in (…)"` |
| DBlite.PlaceholdersShape | core/dblite.py:18 | the placeholder list is `?, ?, …` with exactly n question marks |
| DBlite.GWPlaceholderCount | core/dblite.py:13-19 | the clause has exactly one placeholder per value |
| DBlite.FirstRejected | core/dblite.py:91-96 | the position of the first template whose batch the database rejects; every earlier batch is accepted |
| DBlite.Batches | core/dblite.py:91-93 | one batch event per template flushed |
| DBlite.BatchesAt | core/dblite.py:91-93 | the i-th batch sent is the i-th template with all its pending tuples in order |
| DBlite.SendAll | core/dblite.py:90-96 | the flush loop sends the batches up to the first rejected one (opening the connection first when anything is pending) and stops there |
| DBlite.ClosingEvents | core/dblite.py:105-124 | closing starts with a commit and ends with closing the connection, and never sends a batch; quick release sends only those two; otherwise it also runs the two checks, `VACUUM` and a second commit |
| DBlite.LastIndex | core/dblite.py:86-87 | the last row with a given key |
| DBlite.PairsDict | core/dblite.py:84-88 | rows that are not all pairs fail to unpack; otherwise each key maps to the value of its last row |
| DBlite.Enqueue | core/dblite.py:54-60 | below 1000 pending tuples it only appends; at 1000 it sends exactly one batch of that template's tuples in order and drops only that buffer; a rejected batch keeps the buffer |
| DBlite.Writer.constructor | core/dblite.py:23-30 | a new writer has no connection, no buffers and an empty log |
| DBlite.Writer.Con | core/dblite.py:36-41 | the connection opens once, lazily, and the buffers are untouched |
| DBlite.Writer.Execute | core/dblite.py:43-49 | one statement is run on the connection, which is opened if needed |
| DBlite.Writer.ExecuteMany | core/dblite.py:54-60 | below 1000 pending tuples it only appends; at 1000 it opens the connection if needed, sends exactly one batch of that template's tuples in order and drops only that buffer; a rejected batch keeps the buffer; when it succeeds and every buffer was below 1000 before, every buffer is below 1000 after |
| DBlite.Writer.Flush | core/dblite.py:90-97 | every pending template is sent once, in order, and all buffers are cleared; if a batch is rejected, the batches before it were sent and nothing is cleared |
| DBlite.Writer.Commit | core/dblite.py:99-100 | one commit is sent |
| DBlite.Writer.Close | core/dblite.py:102-125 | without a connection nothing happens; otherwise the closing sequence is logged and the connection is gone; pending buffers are not flushed |
| DBlite.Writer.ToTuple | core/dblite.py:76-82 | the rows of the query, one-column rows unwrapped |
| DBlite.Writer.GetDict | core/dblite.py:84-88 | the query's pairs as a dict in which later rows win |
| Files.ResolvePath | core/filemanager.py:56-67 | absolute paths are kept and relative ones are joined under the root; with an absolute root and home the result is absolute |
| Files.ResolveIdempotent | core/filemanager.py:56-67 | resolving a resolved path changes nothing |
| Files.BaseName | core/filemanager.py:94 | a path's last component has no `/` |
| Files.Suffix | core/filemanager.py:89 | `Path.suffix` is empty or a dot followed by a non-empty name without dots |
| Files.NormalizeExt | core/filemanager.py:69-80 | the result never starts with a dot |
| Files.Alias | core/filemanager.py:75-80 | the alias table maps dot-free names to dot-free names |
| Files.NormalizeExtFixed | core/filemanager.py:69-80 | normalized extensions are fixed points |
| Files.NormalizeExtNormal | core/filemanager.py:69-80 | every result is lower-case, dot-free and not an alias |
| Files.NormalizeExtIdempotent | core/filemanager.py:69-80 | normalizing twice is normalizing once |
| Files.HandlerFor | core/filemanager.py:91-94 | only `json` and `txt` have handlers |
| Files.HandlerForSuffix | core/filemanager.py:89-94 | a suffix has a handler iff its lower-cased, dot-stripped form is one of json, js, txt, sql, gql or log |
| Files.AliasHandled | core/filemanager.py:75-94 | after aliasing, exactly json, js, txt, sql, gql and log have handlers |
| Files.MyExAsWrittenAppends | core/filemanager.py:17-20 | as written, a one-string exception gets the path as a second argument instead of appended to its message |
| Files.MyEx | core/filemanager.py:15-22 | a single string argument gets the message appended after a space, so it is not split or extended; the last argument always ends with the message; it differs from the code as written exactly for a single string argument |
| Files.ParseShape | core/filemanager.py:146-155 | the result holds no lists or sets at any depth, and such values are fixed points |
| Files.ParseIdempotent | core/filemanager.py:146-155 | parsing twice is parsing once |
| Files.JsonShape | core/filemanager.py:129-131 | what `json.dump` stores is plain JSON, and plain JSON survives a parse and dump unchanged |
| Files.JsonDumpStable | core/filemanager.py:119-131 | dumping what was loaded stores the same value again |
| Files.Load | core/filemanager.py:82-138 | an extension without a handler raises; a missing file raises `FileNotFoundError`; a JSON decode error carries the path as the corrected `MyEx` appends it (see Findings) |
| Files.LoadStoredJson | core/filemanager.py:119-127 | a JSON file loads as the value stored in it |
| Files.LoadStoredText | core/filemanager.py:133-138 | a text file loads as its text |
| Files.LoadTxtPlain | core/filemanager.py:136-138 | without arguments, text is not formatted |
| Files.DumpThenLoad | core/filemanager.py:102-138 | loading a dumped JSON file gives the parsed value back, and loading a dumped text file gives the text |
| Files.Dump | core/filemanager.py:102-117 | no handler raises and writes nothing; JSON stores the parsed value; format only runs with arguments; a failed write leaves an emptied file; a successful JSON dump, or text dump without arguments, loads back as what was written |
| Files.DumpJson | core/filemanager.py:129-131 | stores the parsed value; extra positional arguments raise after truncating the file |
| Files.DumpText | core/filemanager.py:140-144 | formats only with arguments; a non-string raises before opening with arguments and after truncating without |
| Files.DwnJson | core/filemanager.py:166-172 | returns the fetched JSON, or the default when the fetch gives `None`, and stores that value under the target name, which loads back as the stored JSON; the new disk is the old one with only the target replaced, stamped with the current time |
| Cache.MirrorsOf | core/cache.py:132-138 | a string mirror gives its whitespace-separated words, a tuple is kept and anything else gives none |
| Cache.Words | core/cache.py:136 | the split words as string values |
| Cache.NewConfig | core/cache.py:28-38 | the threshold is fixed at construction as now − maxOld·86400, or absent when `maxOld` is `None` |
| Cache.FileName | core/cache.py:40-128 | without arguments the template itself; with positional or keyword arguments the template formatted with them, after `kwself` is added and `slf` taken out for `Cache` and `DictCache` and unchanged for `StaticCache`; hash variants format the template with the digest of the arguments |
| Cache.FileNameIgnoresSelf | core/cache.py:70-74 | when `self` is not named by `kwself`, the file name does not depend on it |
| Cache.TooOld | core/cache.py:53-64 | a missing name, a missing file or `reload` is too old; otherwise it is too old iff there is a threshold and the mtime is strictly below it |
| Cache.FreshnessBoundary | core/cache.py:35-62 | a file is fresh iff its age is at most maxOld days, the boundary included |
| Cache.ToTimestamp | core/cache.py:21-24 | non-strings give `None`, strings their parsed time |
| Cache.TimeKey | core/cache.py:146 | `to_timestamp(...) or -1`: an undated copy ranks as -1, a dated one as its timestamp (a timestamp of 0 also as -1), and a parse error propagates |
| Cache.NewerAsWrittenRaises | core/cache.py:147-148 | comparing a time with a stored `__time__` string raises `TypeError` |
| Cache.FindInMirror | core/cache.py:140-152 | fails iff some mirror fails; finds nothing iff no mirror gives a dict; otherwise the copy adopted last, where a dict replaces an undated adopted one unconditionally and a dated one only by ranking higher: every later dict ranks no higher, and when every served dict is dated the result is the first copy with the newest time; this is the corrected rule: as written, an adopted string `__time__` (the form `save` writes) makes the next dict raise `TypeError`, and a numeric one is compared raw rather than parsed (see Findings) |
| Cache.ScanStep | core/cache.py:141-149 | one mirror more scanned keeps the loop invariant: the adopted copy is the one the rule picks among the mirrors scanned so far; the rule is the corrected one of `FindInMirror` |
| Cache.ScanDone | core/cache.py:140-152 | once all mirrors are scanned without failure, nothing is found iff no mirror gave a dict, otherwise the adopted copy is the one the rule picks; the rule is the corrected one of `FindInMirror` |
| Cache.Stamped | core/cache.py:180-184 | dict values gain `__time__` set to now and keep every other entry; other values are untouched |
| Cache.Save | core/cache.py:180-184 | stores the stamped value, which loads back as written |
| Cache.StampReadsBack | core/cache.py:182 | the stamp survives the JSON round trip |
| Cache.AdoptMirror | core/cache.py:159-170 | a missing local file is replaced by the adopted mirror copy, stamped with now and dated with the copy's own `__time__` when it has one and with the save time otherwise; when the file stays missing nothing changes; the copy is the one the corrected mirror scan adopts (see Findings) |
| Cache.StaleCopyTooOld | core/cache.py:167-177 | an adopted copy whose own time is before the threshold counts as too old |
| Cache.DictTooOld | core/cache.py:154-178 | `reload` and a missing name are too old without consulting mirrors; an existing file gets the plain age test; an adopted copy is stored as `AdoptMirror` says and then faces the same age test; mirrors are scanned with the corrected rule |
| Cache.CallCache | core/cache.py:70-111 | a fresh non-`None` read is returned without computing, for `DictCache` too when the file exists; whatever is returned without computing is what the file now reads, and that file is not too old; a stale or `None` read computes, for `DictCache` too on `reload` or when the file exists; a non-`None` result is saved, empty containers included, and a JSON file loads back as the stamped result; `None` is returned unsaved; `skip` bypasses the cache; `DictCache` mirrors are scanned with the corrected rule |
| Req.StripBodySpec | core/req.py:30-32 | the body is stripped; an empty one gives `None` |
| Req.TransientRun | core/req.py:42-50 | the run of transient failures from a given request, capped |
| Req.TransientBefore | core/req.py:42-50 | every attempt inside the run failed transiently |
| Req.Attempts | core/req.py:40 | at least one attempt, and exactly `chances` when positive |
| Req.Settled | core/req.py:42-50 | the attempt that settles the loop, or the cap |
| Req.SettledHere | core/req.py:42-50 | the first attempt that does not fail transiently settles the loop |
| Req.TriesShape | core/req.py:42-50 | k attempts fetch k times and sleep 10 s k − 1 times, ending with a fetch |
| Req.CountLast | core/req.py:42-50 | appending one event adds to exactly one of the fetch and sleep counts |
| Req.WaitedThenTry | core/req.py:44-50 | attempt i follows i − 1 attempts and their sleeps |
| Req.TriesStep | core/req.py:50 | one more failed attempt extends the log by a sleep and a request |
| Req.Client.constructor | core/req.py:17-20 | an empty memo, no address asked yet, nothing sent |
| Req.Client.GetBodyRaw | core/req.py:19-32 | a memoised key is answered without a request; otherwise one request is made and a body is memoised stripped |
| Req.Client.Ip | core/req.py:34-37 | a kept address is returned without a request; on the first call a memoised body is reused, otherwise exactly one request to `https://ifconfig.me/ip` is sent and logged, its stripped body is the result and is memoised; a successful answer is kept |
| Req.Client.GetBody | core/req.py:39-50 | all transient failures give `None` after exactly `max(chances, 1)` attempts, with a 10 s sleep between attempts but not after the last; the first settled attempt gives its result and no further attempts |
| Req.Client.GetBodyTries | core/req.py:40-50 | for a key that is not memoised: all transient failures give `None` after exactly `max(chances, 1)` attempts, 10 s apart, with a critical log unless silent; otherwise the first settled attempt gives its result, is memoised, and ends the attempts |
| Req.Client.GetJsonOnce | core/req.py:60-62 | one body decoded as JSON |
| Req.Client.GetJson | core/req.py:52-68 | a memoised body is decoded without a request; an HTTP error with a positive wait sleeps that long and retries once, the second answer deciding the result; otherwise there is exactly one attempt and the error propagates; the memo afterwards holds the stripped body of the deciding attempt when it returned one |
| Req.Client.SafeGetJson | core/req.py:70-76 | `get_json`'s requests, events and memo, then: the swallowed errors give `None` and a warning unless the code is 404; anything else, including the `TypeError` of an empty body, escapes |
| Req.Safe | core/req.py:71-76 | only the listed exceptions are swallowed |
| Req.HttpErrorRaised | core/req.py:61-63 | an HTTP error can only come from the transport |
| Req.NotHttpWait | core/req.py:63-66 | a result that is not an HTTP error never waits |
| Req.Remember | core/req.py:19-32 | a body is memoised under its key, stripped; a raise memoises nothing |
| Req.JsonOf | core/req.py:61-62 | a transport error propagates, an empty body is a `TypeError`, and a body decodes or raises `JSONDecodeError` |
| Tsv.ParseInt | core/tsv.py:48-49 | `int` of a decimal string is its value; `''` fails |
| Tsv.Strs | core/tsv.py:45 | the pieces as string values |
| Tsv.ParseKeyVal | core/tsv.py:27-50 | missing values give 0, `()` or `None` by key; the title flag maps to a bool or raises `KeyValueError` (the corrected half of the tsv finding, where the code as written raises `TypeError`); non-strings pass through; list columns give comma-free pieces; the only errors are `ValueError` and the key/value error |
| Tsv.ParseKeyValText | core/tsv.py:42-50 | a present string cell: list columns give exactly the pieces of the stripped cell split at commas with their surrounding blanks; `averageRating` gives the parsed float or `ValueError`; integer columns give the parsed integer or `ValueError`; any other column gives the stripped text |
| Tsv.ListColumnRoundTrip | core/tsv.py:44-45 | a list cell with no blanks around its commas splits into pieces that join back with `,` to the stripped cell |
| Tsv.ParseKeyValWithErr | core/tsv.py:27-50 | a failure is a conversion error or the given title error |
| Tsv.ListPieces | core/tsv.py:44-45 | the split pieces of a list column contain no comma |
| Tsv.StrsNoSep | core/tsv.py:45 | separator-free pieces stay separator-free as values |
| Tsv.ParseVal | core/tsv.py:19-24 | every failure surfaces as `KeyValueError(k, v)` |
| Tsv.TitleTwo | core/tsv.py:38-39 | `"2"` is present and is not a title flag |
| Tsv.BadTitleRaises | core/tsv.py:38-40 | a bad title flag raises the title error |
| Tsv.TitleErrorAsWritten | core/tsv.py:38-41 | as written, `"2"` raises `TypeError`; corrected, it raises `KeyValueError` |
| Tsv.ParseAgreesAsWritten | core/tsv.py:19-50 | away from a bad title flag, the code as written and the corrected parser agree |
| Tsv.DecimalPresent | core/tsv.py:28-31 | a decimal string is stripped and present |
| Tsv.IntFieldWith | core/tsv.py:48-49 | an integer column with a readable integer gives it |
| Tsv.IntKeyKind | core/tsv.py:38-49 | integer columns are not the title, list or rating columns |
| Tsv.IntColumnDecimal | core/tsv.py:48-49 | a decimal cell of an integer column gives its value |
| Tsv.IntColumnRoundTrip | core/tsv.py:48-49 | the decimal text of any `n` parses back to `n` in every integer column |
| Tsv.ListColumnSingle | core/tsv.py:44-45 | a comma-free list cell gives a one-element tuple |
| Tsv.FirstBad | core/tsv.py:58 | the first cell that fails to parse |
| Tsv.ParseRow | core/tsv.py:56-58 | a row is parsed pairwise against the header, truncated to the shorter; it succeeds iff every cell does, else it fails with a failing cell's error |
| Tsv.RowErrorNamesField | core/tsv.py:19-24 | a row failure names one of its cells, and under the corrected parser it is re-raised as `ValueError` |
| Tsv.IterList | core/tsv.py:53-64 | no rows raise; otherwise the header comes first, then the parsed rows in order, stopping at the first bad row with `Reraised` of the failing field's error (`ValueError` under the corrected parser) |
| Tsv.LastIndexOf | core/tsv.py:72 | the last position of a name in the header, or −1 when it is absent |
| Tsv.HeaderIndex | core/tsv.py:72 | each header name maps to its last position |
| Tsv.ZipDict | core/tsv.py:83 | `dict(zip(header, row))` over the truncated header, later columns winning |
| Tsv.Indices | core/tsv.py:73 | an unknown column raises; otherwise each requested column gets its header position |
| Tsv.Project | core/tsv.py:75 | a short row raises; otherwise the values at the requested positions, in requested order |
| Tsv.IterTuples | core/tsv.py:67-76 | every row is projected onto the requested columns in the requested order; an unknown column raises `KeyError` first; a stop is a bad row or a short row |
| Tsv.ProjectRows | core/tsv.py:74-76 | the projection loop stops at the first short row |
| Tsv.StopReason | core/tsv.py:67-76 | a stop is explained by a parse error or a short row |
| Tsv.ShortRow | core/tsv.py:75 | a short row lacks some requested column |
| Tsv.ProjectionHolds | core/tsv.py:72-76 | each projected value is the parsed cell of the requested column |
| Tsv.IterDict | core/tsv.py:79-84 | each row after the header becomes the zip of the header with its parsed values; a bad row stops the stream with `Reraised` of the failing field's error (`ValueError` under the corrected parser) |
| Tsv.ZipRows | core/tsv.py:82-84 | the zip loop pairs every parsed row with the header |
| Git.Run | core/git.py:45-49 | the command's stripped output, or `None` when git fails; the output has no outer whitespace left to strip and keeps every visible character |
| Git.Root | core/git.py:9-11 | git's top level when it is non-empty, else the current directory |
| Git.Mail | core/git.py:13-22 | `GITHUB_MAIL`, else git's `user.email`, else `<actor or owner or unknown>@github.com`; never empty |
| Git.EnvValueVisible | core/git.py:16-19 | a variable the lookup finds is never empty |
| Git.EnvLookupSome | core/git.py:21 | with a default the lookup always gives something |
| Git.NormalizeRemote | core/git.py:30-35 | no trailing slash remains; a plain URL only loses its trailing slashes |
| Git.ServerUrl | core/git.py:26 | `GITHUB_SERVER_URL` or `https://github.com` |
| Git.Remote | core/git.py:24-35 | with `GITHUB_REPOSITORY` set, the host plus the repository; otherwise the normalized origin URL, or `AttributeError` when git fails |
| Git.FindFrom | core/git.py:39 | the first position of a character from a start |
| Git.PageGroups | core/git.py:39 | the user has no `/` and neither part spans a line |
| Git.Page | core/git.py:37-43 | `https://github.com/U/P` maps to `https://U.github.io/P`; anything else gives `None` |
| Git.PageOf | core/git.py:37-43 | the page of the remote, whose error propagates |
| Git.GithubPage | core/git.py:39-43 | a GitHub URL's page is the user's `github.io` page for the project |
| Git.PageFromEnvironment | core/git.py:24-43 | with `GITHUB_REPOSITORY=U/P` and the default host, the page is `https://U.github.io/P` |
| Git.ReplaceCharAppend | core/git.py:34 | replacing a character distributes over concatenation |
| Git.GitAtRemoved | core/git.py:34 | `git@` is dropped from an SSH remote |
| Git.ColonReplaced | core/git.py:34 | the host separator colon becomes a slash |
| Git.SshNormal | core/git.py:30-35 | `git@H:T.git` normalizes to `https://H/T` |
| Git.SshRemote | core/git.py:30-35 | a GitHub SSH remote normalizes to its HTTPS URL |
| Git.PageFromSshOrigin | core/git.py:24-43 | an SSH GitHub origin gives the same page as the HTTPS one |
| Imdb.AssignIndex | core/imdb.py:42-45 | the index is below the number of keys: a stored index ≥ 0 is kept mod n, and a new address takes the next index after the last assigned |
| Imdb.Recorded | core/imdb.py:47-48 | both the `''` entry and the address's entry become the assigned index, and no other entry changes |
| Imdb.KnownIpStable | core/imdb.py:42-48 | an address keeps its key on the next call |
| Imdb.NewIpNext | core/imdb.py:42-48 | the next new address gets the next key, round robin |
| Imdb.Verdict | core/imdb.py:58-76 | HTTP 401 and "Request limit reached!" switch OMDb off, and nothing else does; a 401 gives `None`, other HTTP errors re-raise unchanged; a dict body is returned exactly when it has no error and a true-ish `Response`, else `None`; a non-dict body fails on `.get` |
| Imdb.VerdictAnswer | core/imdb.py:66-76 | every kept answer is an accepted OMDb record |
| Imdb.SafeNumNumeric | core/imdb.py:172-173 | with a numeric default, the number is always numeric |
| Imdb.MovieOf | core/imdb.py:166-174 | the record carries the id; title and type are `safe_str` of their fields and year, runtime, votes and rating `safe_num` of theirs; votes and rating are always numeric and 0 when missing, the other fields `None` when missing |
| Imdb.CountryOf | core/imdb.py:150-159 | the sorted intersection when non-empty, else the wiki list, else the OMDb list; nothing only when both are empty |
| Imdb.CountryWords | core/imdb.py:148-155 | the merged words come from the two lists, and the intersection case splits back into sorted codes |
| Imdb.MergeCountries | core/imdb.py:149-160 | only requested ids appear, exactly those with some country, each with the merge rule's value |
| Imdb.Collect | core/imdb.py:149-160 | the per-id table holds exactly the ids with an entry |
| Imdb.OmdbCodes | core/imdb.py:142-146 | only requested ids get OMDb codes, and the last id answered with a record gets the converted codes of its `Country` |
| Imdb.OmdbCodesStep | core/imdb.py:142-146 | one more answer: a record adds or overwrites its id's codes, anything else changes nothing |
| Imdb.WikiCodes | core/imdb.py:147-148 | the same ids as Wikidata's answer, each with words that join back to its cleaned text |
| Imdb.TtId | core/imdb.py:129 | a match is `tt` followed by digits, read from the body at its position up to the first non-digit |
| Imdb.TtIdFound | core/imdb.py:129 | at every match position the id read there is a whole match bounded by a non-digit |
| Imdb.TtIds | core/imdb.py:129 | every scraped id is `tt` followed by digits |
| Imdb.TtIdsExact | core/imdb.py:129 | every `\btt\d+` match in the body is found, and every found id is a whole match at a word boundary of the body |
| Imdb.TtIdsSingle | core/imdb.py:129 | a body that is one id gives that id |
| Imdb.ScrapeOf | core/imdb.py:119-131 | an unhashable URL raises `TypeError` in the cache; other non-string and blank URLs give nothing; a fetched body gives exactly its ids, a missing body nothing, and a failing fetch its error |
| Imdb.ScrapedUnionSpec | core/imdb.py:133-136 | it succeeds iff every URL does, and an id is in it iff some URL gives it |
| Imdb.ScrapedUnionPrefixErr | core/imdb.py:135-136 | once a prefix of the URLs fails, the whole union is that prefix's result, the first failing URL's error, and the later URLs do not matter |
| Imdb.Client.constructor | core/imdb.py:31-32 | OMDb starts active, with no key chosen, nothing memoised and no requests |
| Imdb.Client.Based | core/imdb.py:34-51 | a chosen prefix is returned as is; with none chosen it fails with `ValueError` exactly when there are no keys; a successful choice is kept; the switch, the memo and the requests are untouched |
| Imdb.Client.BasedChoice | core/imdb.py:36-51 | with no prefix yet and some keys, the prefix carries the key of the index assigned to this IP, and the table recording that index is dumped |
| Imdb.Client.BasedKept | core/imdb.py:34-35 | once chosen, the prefix is kept: asking again gives the same prefix and changes nothing |
| Imdb.Client.OmdbApi | core/imdb.py:34-51 | the prefix and the new prefix and dumped table are `Based`'s on the old state |
| Imdb.Client.FetchSpec | core/imdb.py:53-76 | a memoised id answers from the memo and changes nothing; once OMDb is off the answer is `None`, memoised, with nothing else changed; else a missing prefix is the `ValueError` with nothing changed, or exactly one request goes to prefix + id, its verdict is the answer and turns OMDb off iff it says so, and the prefix choice is kept; only successful answers are memoised; the switch never turns on; a sound memo stays sound and every answer is an accepted record or `None` |
| Imdb.Client.FetchValue | core/imdb.py:78-84 | `None`, `''` and non-strings leave the session as it was; a non-empty string is `__get_from_omdbapi`'s call |
| Imdb.Client.FetchAllStep | core/imdb.py:142-143 | one more id is asked on the session the earlier ids left, and its error stops the calls |
| Imdb.Client.FetchAllPrefixErr | core/imdb.py:142-143 | once a call fails, the later ids are not asked and the session stays as that call left it |
| Imdb.Client.GetFromOmdbapiRaw | core/imdb.py:53-76 | the answer and the whole new state (switch, prefix, dumped table, memo, requests) are `Fetch`'s on the old state; the memo stays sound |
| Imdb.Client.Ask | core/imdb.py:56-76 | for an id not memoised while OMDb is on, the answer and the whole new state are `Fetch`'s on the old state |
| Imdb.Client.GetFromOmdbapi | core/imdb.py:78-84 | `None` and `""` give `None` and change nothing; non-strings raise `ValueError` and change nothing; any other id gets the memoised `__get_from_omdbapi` answer and state, with its one request and switch |
| Imdb.Client.Get | core/imdb.py:162-174 | `None` when OMDb gives nothing (an empty id, a memoised or fresh `None`, OMDb off), `ValueError` for a non-string, the record `MovieOf` builds from the accepted dict otherwise; errors propagate; the new state is `get_from_omdbapi`'s |
| Imdb.Client.GetCountries | core/imdb.py:139-160 | the new state is that of the `get_from_omdbapi` calls in order, up to the first error, which propagates; after them, an error of `WIKI.get_countries` propagates; otherwise exactly the requested ids with a country from OMDb's codes or Wikidata's appear, each with the merge rule's value; every id with wiki countries is present |
| Imdb.Client.ScrapeOne | core/imdb.py:119-131 | one URL is scraped as specified; a success is memoised, and nothing else changes |
| Imdb.Client.Scrape | core/imdb.py:133-137 | the sorted union of the ids over all URLs, without duplicates; when a URL fails, the first failing URL's error; on success every URL is memoised, and only the given URLs are ever added |
| Wiki.Shrink | core/wiki.py:71 | the new chunk size is at least 1, never above the previous one, and at most a third of the pending ids |
| Wiki.ShortestKeys | core/wiki.py:84-87 | `error_query` has an entry for exactly the codes that failed |
| Wiki.ShortestMin | core/wiki.py:85-87 | no failed query of a code is shorter than the one kept |
| Wiki.ShortestFrom | core/wiki.py:85-87 | the query kept is one of that code's queries |
| Wiki.Truthful | core/wiki.py:79 | only truthy entries are kept, unchanged |
| Wiki.ChunkStepKeeps | core/wiki.py:76-92 | a chunk keeps the partition of results and pending ids, only resolves pending ids, keeps earlier results, and never lets a `WikiError` escape |
| Wiki.WikiErrorCaught | core/wiki.py:80-87 | a `WikiError` changes neither `ko` nor the result, and a 429 records nothing |
| Wiki.NothingTruthy | core/wiki.py:88-89 | a chunk with nothing truthy changes nothing |
| Wiki.ForeignKeyRaises | core/wiki.py:90-91 | a truthy entry for an id that is not pending raises `KeyError` instead of leaking |
| Wiki.ListOf | core/wiki.py:74 | `list(ko)` holds exactly the pending ids, each once, in no promised order |
| Wiki.InFlatten | core/wiki.py:74 | an element of a chunk is in the flattened list |
| Wiki.FlattenIn | core/wiki.py:74 | every element of the flattened list is in some chunk |
| Wiki.Chunks | core/wiki.py:74 | `iter_chunk(size, list(ko))`: the chunks concatenate to a duplicate-free listing of the pending ids, are non-empty, hold `size` ids each but for a shorter last one, and form a single chunk when `size <= 0` |
| Wiki.SweepStops | core/wiki.py:74-93 | once an exception escapes a chunk, the later chunks of the round change nothing |
| Wiki.ChunkStepSourced | core/wiki.py:76-92 | a chunk only adds values that its call answered for that id |
| Wiki.StepSourced | core/wiki.py:75-92 | a pass of the loop body, or a skipped one after an escape, only adds values that its call answered for that id |
| Wiki.SweepSourced | core/wiki.py:74-93 | a round only adds values that some call answered for that id |
| Wiki.ChunkEventsCalls | core/wiki.py:76-82 | each chunk's events hold exactly one call, of that chunk |
| Wiki.StepCalls | core/wiki.py:75-82 | a pass of the loop body adds one call of its chunk |
| Wiki.SweepCalls | core/wiki.py:74-82 | the chunks are called in order, one call each; when nothing escapes, every chunk of the round is called |
| Wiki.SweepWikiErrors | core/wiki.py:80-89 | a round whose every call raises a `WikiError` runs to its end and resolves nothing |
| Wiki.AnsweredStep | core/wiki.py:76-92 | a call answering its whole chunk truthily resolves exactly the chunk's ids and records no failure |
| Wiki.StepResolves | core/wiki.py:75-92 | the same for one pass of the loop body |
| Wiki.SweepResolves | core/wiki.py:74-93 | when every call answers its chunk in full, a round resolves exactly the ids of its chunks |
| Wiki.RoundResolves | core/wiki.py:74-93 | when every call answers its chunk in full, one round leaves nothing pending |
| Wiki.StepKeeps | core/wiki.py:75-93 | a pass of the loop body keeps the partition, truthy values, well-formed events and the shortest failure per code |
| Wiki.SweepKeeps | core/wiki.py:74-93 | a round keeps those, only shrinks `ko` and adds no pause between rounds |
| Wiki.SweepKeepsStep | core/wiki.py:75-93 | a pass of the loop body over a chunk of pending ids keeps the partition, truthy values, well-formed events and the shortest failure per code, only shrinks `ko` and adds no pause |
| Wiki.ChunkEventsKeep | core/wiki.py:76-82 | a call's events, with a 60 s pause after a 429, keep the events well formed |
| Wiki.FailuresKeep | core/wiki.py:80-87 | a non-429 `WikiError` is recorded as the shortest query of its code; nothing else is recorded |
| Wiki.RunChunk | core/wiki.py:75-93 | one pass of the loop body computes the pass of the reference round on `fetch`'s answer: the call and a 60 s pause after a 429 are appended, the failure is recorded, and the truthy entries resolve their ids; the partition and the shortest failure per code are kept |
| Wiki.SweepNext | core/wiki.py:74-93 | while nothing has escaped, the round after chunk `j` is the loop body applied to chunk `j` and the answer of call `count + j` |
| Wiki.RunRound | core/wiki.py:66-93 | the round's loop computes the reference round over its chunks, call `count0 + j` answering chunk `j`, with `error_query` reset; the count advances by the number of chunks; the partition is kept and no pause is added |
| Wiki.PlayRound | core/wiki.py:66-93 | the same over `iter_chunk(size, list(ko))` |
| Wiki.ScheduledExtend | core/wiki.py:67-72 | each later round shrinks its chunk size and starts before the deadline |
| Wiki.RoundProgress | core/wiki.py:65-93 | a round that keeps those invariants carries the loop invariant to the next round |
| Wiki.NextRound | core/wiki.py:65-93 | one more round is recorded with its shrunk chunk size and pending ids, after a 5 s pause but for the first; its state is the reference round on `fetch`; when every call answers in full it leaves nothing pending; the loop invariant is kept |
| Wiki.ReplayNext | core/wiki.py:65-93 | the reference run over one more round is the reference round on the new chunks, after a 5 s pause but for the first, and its calls are numbered after the earlier rounds' |
| Wiki.RetryEnds | core/wiki.py:65-98 | when the loop stops, between 1 and 3 rounds ran as scheduled before the deadline with one 5 s pause between rounds, the failures keep the shortest query per code without any 429, and, when nothing escaped, results and unresolved ids split the requested ids, every value truthy |
| Wiki.RetryFetch | core/wiki.py:40-98 | no ids give `{}` without a call; otherwise the result, the unresolved ids, the events and `error_query` are those of the reference run `Replay` of the rounds actually played, where round `t` chunks exactly the ids left by the rounds before it (`Retried`);  between 1 and 3 rounds run, later ones only before the 300 s deadline and with a shrunk chunk size, with one 5 s pause between rounds; results and unresolved ids split the requested ids; every returned value is truthy and is one that a call answered for that id; the loop ends when nothing is pending, the third round is over or the time is up; when every call answers in full, one round resolves everything; `error_query` keeps the shortest query per code; no `WikiError` escapes |
| Wiki.LoopStep | core/wiki.py:67-93 | one pass of `retry_fetch`'s `while` body adds exactly one round and keeps the loop invariant `Looping`: the rounds so far are the reference run `Replay` over chunkings of the ids each round found pending, on the schedule of sizes and 5 s pauses, with the partition, truthy values and well-formed events kept |
| Wiki.RetryLoop | core/wiki.py:67-93 | the `while` loop runs at least one round, keeps `Looping`, and stops only when an exception escaped, nothing is pending, three rounds ran or the 300 s deadline passed |
| Wiki.Bindings | core/wiki.py:143-151 | the bindings of a well-shaped answer, row by row |
| Wiki.Wrapped | core/wiki.py:132-134 | a transport failure becomes a `WikiError` carrying the query, with a code exactly for HTTP errors |
| Wiki.QueryAsWritten | core/wiki.py:136-151 | as written, a badly shaped answer raises `TypeError` |
| Wiki.QueryAgreesAsWritten | core/wiki.py:136-151 | the corrected `query` and the code as written agree exactly when the answer is not a badly shaped one |
| Wiki.Query | core/wiki.py:136-151 | it succeeds iff the answer is well shaped, giving its bindings; every failure is a `WikiError` with the query; a shape failure has no code |
| Wiki.ShapeErrorAborts | core/wiki.py:138-150 | as written, a shape failure escapes `retry_fetch`; corrected, the chunk is skipped |
| Wiki.KeyOf | core/wiki.py:280 | `row[name]['value']` succeeds iff the cell is a dict with a value |
| Wiki.ValOf | core/wiki.py:281 | `row.get(name, {}).get('value')` fails only on a non-dict cell; a missing cell gives `None` |
| Wiki.DictCell | core/wiki.py:281-288 | blanks and `None` are skipped, all-digit text becomes an int, other text is kept stripped, and a non-string value fails |
| Wiki.UrlCell | core/wiki.py:368-373 | blanks and `None` are skipped, other strings are stripped, and an unhashable value raises `TypeError` when added to the set |
| Wiki.CountryCell | core/wiki.py:308-309 | falsy values are skipped, truthy ones kept as they are, and a truthy unhashable value raises `TypeError` when added to the set |
| Wiki.Entry | core/wiki.py:280-288 | a kept entry has the row's key, which is hashable; an unhashable key of a kept value raises `TypeError` |
| Wiki.GroupedOk | core/wiki.py:278-289 | the row fold succeeds iff every row does |
| Wiki.GroupedNonEmpty | core/wiki.py:288 | each key's set is non-empty |
| Wiki.GroupedMembers | core/wiki.py:278-289 | each key's set holds exactly the values of its rows |
| Wiki.Collect | core/wiki.py:279-288 | the row loop computes the fold |
| Wiki.GroupedPrefixErr | core/wiki.py:279-288 | the first failing row's error escapes |
| Wiki.Only | core/wiki.py:374 | the one element of a one-element set |
| Wiki.Singles | core/wiki.py:374 | exactly the keys with one value, with that value |
| Wiki.SortTexts | core/wiki.py:173 | sorted text cells, the same set |
| Wiki.SortNums | core/wiki.py:173 | sorted number cells, the same set |
| Wiki.SortCells | core/wiki.py:173 | sorting fails exactly when text and ints are mixed; otherwise it is ascending and holds exactly the set |
| Wiki.Director | core/wiki.py:171-173 | each key with values gets them as a sorted tuple |
| Wiki.CountryJoin | core/wiki.py:310-313 | each key with codes gets them sorted and joined with spaces |
| Wiki.DictChunkCells | core/wiki.py:248-290 | every kept value is the cleaned cell of some row of a well-shaped answer; a badly shaped answer is the corrected code-less `WikiError` (see Findings) |
| Wiki.DictCellSourced | core/wiki.py:246-290 | each cell `get_dict` returns for an id is the cleaned value of a row that some query's answer gave for that id |
| Wiki.GetDict | core/wiki.py:246-290 | the answer of the reference run of the rounds played (`Retried`, `Replay`) with chunks of 300; only requested ids appear, each with a non-empty set that some call of the chunk query answered; when every call answers in full, every requested id appears; no ids give `{}`; no `WikiError` escapes; a badly shaped answer is the corrected code-less `WikiError`, retried like any failed chunk, where the code as written raises `TypeError` (see Findings) |
| Wiki.GetSingles | core/wiki.py:153-162 | from the reference run of `get_dict`'s rounds: its error, or exactly the ids with one value, each with that value; when every call answers in full it succeeds; only requested ids; no ids give `{}`; a badly shaped answer is handled as corrected, as in `GetDict`; for `get_names`, every call gives these names, which is the corrected behaviour (see Findings) |
| Wiki.NamesAsWritten | core/wiki.py:176-181 | `get_names` as written over the memoised label lists: exactly the ids with one label, with it, and the memo afterwards holding those lists emptied, the others untouched |
| Wiki.NamesAsWrittenForgets | core/wiki.py:176-181 | as written, a second call on the memo the first left returns nothing |
| Wiki.NamesAsWrittenTwice | core/wiki.py:176-185 | the input that shows it: one id with one label gives its name on the first call and `{}` on the second |
| Wiki.Names | core/wiki.py:176-181 | corrected `get_names`: reads the one label as `v[0]` (as `get_filmaffinity` does at core/wiki.py:158-162) and leaves the memo as it is: exactly the ids with one label, each with it |
| Wiki.NamesAsWrittenFirstCall | core/wiki.py:176-181 | the first as-written call returns what the corrected one does |
| Wiki.NamesAreSingles | core/wiki.py:231-243 | over the repeat-free lists `get_label_dict` builds from sets, the corrected `get_names` is `Singles` of those sets, which is what `Wiki.GetSingles` returns |
| Wiki.GetDirector | core/wiki.py:164-174 | from the reference run of `get_dict`'s rounds: its error, or each id's directors as a sorted non-empty tuple (`Director`, which fails when text and ints mix); only requested ids; no `WikiError` escapes; a badly shaped answer is handled as corrected, as in `GetDict` |
| Wiki.GetCountries | core/wiki.py:292-314 | the answer of the reference run of the rounds played, with chunks of 300; only requested ids appear, each with a non-empty code list that some call of the chunk query answered; when every call answers in full, every requested id appears; a badly shaped answer is the corrected code-less `WikiError`, retried like any failed chunk (see Findings) |
| Wiki.GetWikiUrl | core/wiki.py:316-375 | the answer of the reference run of the rounds played, with chunks of 1000; only requested ids appear, each with a truthy article that some call of the chunk query answered; when every call answers in full, every requested id appears; a badly shaped answer is the corrected code-less `WikiError`, retried like any failed chunk (see Findings) |

## Left out

- `core/country.py` is not part of this model. `to_alpha_3` depends on the pycountry database, so the code conversion is a parameter of `Imdb.Client.GetCountries`.
- `core/config_log.py`, `create.py` and `complete.py` are not part of this model. They cover logging setup and command-line scripts.
- Float parsing: `averageRating` uses a float-parser parameter. The float branch of `safe_num` yields an exact real, not an IEEE double.
- `isdecimal`, `isdigit` and `int` accept only ASCII digits. Unicode digits and underscores are not modelled.
- Networking (`urlopen`, charsets, decoding) is reduced to transport outcomes. `iter_tsv`'s gzip and CSV streaming is replaced by in-memory rows.
- SQLite semantics, PRAGMA results and `VACUUM` are reduced to a log of what is sent. `executescript` and `select`'s cursor are not modelled. `DBlite`'s `reload` file removal and the `atexit` registration are not modelled.
- The real file system:
  - files hold the values they were written with (no JSON or text encoding);
  - `makedirs` is not modelled;
  - the current directory is taken to be the FileManager root;
  - `FileManager.rm` and `cached_load` are not modelled.
- `sha256_hash`, `json.dumps` and the date parsing of `to_timestamp` are uninterpreted parameters.
- SPARQL query text assembly is an opaque query-text parameter.
- Sleeps, requests and calls are recorded as events; the clock is a parameter. Logging output is not modelled.
- `functools.cache` and `cached_property` become memo fields or maps. The `@cache` over the `WikiApi` helpers and the `DictCache` file layer over `__get_from_omdbapi` are not modelled. Leaving out the `WikiApi` memo is sound only when a repeated call gives the same result. That holds for every helper except `get_names`, whose mutation of the memo is recorded under "## Findings".
- git's subprocess is a function from arguments to output.
- `get_label_dict` is modelled by the same fold as `get_dict`, since its row loop is identical; its query text is not modelled.
- `IMDBApi.get_names` and `__get_name` are not modelled. `Wiki.GetSingles` covers the wiki half of `get_names`. The `@cache` memo that `get_names` mutates is modelled only by `Wiki.NamesAsWritten` and `Wiki.Names`.
- Lower and LowerChar (`Text.Lower`, `Text.LowerChar`): only A–Z are lowered. Python's Unicode `lower`, which also changes other letters and can lengthen a string ("İ" becomes two code points), is not modelled.
- TtAt and IsWordChar (`Imdb.TtAt`, `Imdb.IsWordChar`): `\b` and `\d` are read with ASCII classes. Python's Unicode classes would see no boundary in "étt123", where the model finds `tt123`.
- LoadJson (`Files.LoadJson`): the keyword arguments other than `separators` and `indent` that `load_json` passes on to `json.load` are not modelled. An argument `json.load` does not accept, such as `sort_keys`, raises `TypeError` in Python but is ignored here.
- DumpJson (`Files.DumpJson`): the keyword arguments `dump_json` passes on to `json.dump` are not modelled. They only shape the JSON text, which the stored values do not have, and an unknown one raises `TypeError` in Python but is ignored here.
- Req.Client.Ip: `ip` calls `__get_body(url)` positionally while `get_body` calls it with keywords, so Python's `functools.cache` keeps two entries for the same URL. The model keys the memo on the URL, headers and data alone and shares one entry.
- Files.ResolvePath: `~user` expansion and path normalisation (a trailing `/`, `a//b`, `.` parts) are not modelled. Only `~` and `~/…` expand, to the home directory; `~user/…` is joined under the root like any relative path.
- DBlite.Writer.ToTuple and DBlite.Writer.GetDict: `select`'s bind arguments are not modelled. The query text alone determines the rows.
- Wiki.RetryFetch: `tries` is taken as the round count. The loop's clock is read once per round, so the deadline is checked at round boundaries.
- Where "## Findings" records a defect, the rest of the model uses the corrected member. The lines below name each member that therefore departs from the code as written.
- Files.LoadJson: a `JSONDecodeError` with one string argument carries `message + " " + path`. As written, the source gives the two arguments `(message, path)` (`Files.MyExAsWritten`).
- Files.Load: a JSON file's decode error is the corrected one of `Files.LoadJson`.
- Cache.FindInMirror: once a dated dict is adopted, a later mirror dict is compared with the adopted copy's parsed time. As written, the source compares with the raw `__time__`. A string `__time__`, the form `save` writes, then raises `TypeError` (`Cache.NewerAsWrittenRaises`). A numeric one is compared as it is (`Cache.NewerAsWritten`).
- Cache.ScanStep: states the corrected rule of `Cache.FindInMirror`.
- Cache.ScanDone: states the corrected rule of `Cache.FindInMirror`.
- Cache.AdoptMirror: scans with the corrected `Cache.FindInMirror`. As written, a second mirror dict raises `TypeError` once a copy with a string `__time__` is adopted.
- Cache.DictTooOld: scans with the corrected `Cache.FindInMirror`, as `Cache.AdoptMirror` does.
- Cache.CallCache: scans `DictCache` mirrors with the corrected `Cache.FindInMirror`, as `Cache.AdoptMirror` does.
- Wiki.DictChunk: a badly shaped answer is a `WikiError` without a code, and the chunk is retried. As written, the source raises `TypeError`, which escapes `retry_fetch` (`Wiki.QueryAsWritten`, `Wiki.ShapeErrorAborts`).
- Wiki.CountryChunk: a badly shaped answer is handled as corrected, as in `Wiki.DictChunk`.
- Wiki.UrlChunk: a badly shaped answer is handled as corrected, as in `Wiki.DictChunk`.
- Wiki.DictChunkCells: speaks of the corrected `Wiki.DictChunk`.
- Wiki.GetDict: a badly shaped answer is retried as corrected. As written, it aborts the whole call with `TypeError`. `Wiki.QueryAgreesAsWritten` states that nothing else differs.
- Wiki.GetSingles: inherits `Wiki.GetDict`'s corrected handling of a badly shaped answer. For `get_names` it gives the same names on every call, which is the corrected behaviour. As written, `v.pop()` empties the one-label lists inside the dict that `@cache` keeps for `get_label_dict`, so a repeated call with the same ids returns `{}` (`Wiki.NamesAsWrittenForgets`).
- Wiki.GetDirector: inherits `Wiki.GetDict`'s corrected handling of a badly shaped answer.
- Wiki.GetCountries: a badly shaped answer is retried as corrected, as in `Wiki.GetDict`.
- Wiki.GetWikiUrl: a badly shaped answer is retried as corrected, as in `Wiki.GetDict`.
- Tsv.ParseVal: a bad title flag raises `KeyValueError(k, v)`. As written, the source raises `TypeError` (`Tsv.TitleErrorAsWritten`). `Tsv.ParseAgreesAsWritten` states that nothing else differs.
- Tsv.Field: parses with the corrected `Tsv.ParseVal`.
- Tsv.ParseKeyVal: a bad title flag raises `KeyValueError(k, v)`. As written, the source raises `TypeError` (`Tsv.ParseKeyValAsWritten`).
- Tsv.RowErrorNamesField: speaks of the corrected `Tsv.Field`. As written, a bad title flag escapes `iter_list` as `TypeError`, not `ValueError`.
- DBlite.PairsDict, DBlite.Writer.GetDict and Wiki.GetWikiUrl: values are compared structurally. Python's dict keys and sets treat 1, 1.0 and `True` as one value, and 0, 0.0 and `False` as one too. So rows `(1, "a")` and `(1.0, "b")` give one key in Python and two here. Likewise, the articles `1` and `true` for one id are one value in Python, which `get_wiki_url` returns, but two values here, so the id stays pending. SPARQL JSON values are strings in practice.
- DBlite.Writer.GetDict: merges keys as `DBlite.PairsDict` does, structurally.
- Wiki.GetWikiUrl: counts an id's articles structurally, as in the `DBlite.PairsDict` line.
- Imdb.Client.Scrape: when a URL fails, the memo is stated to lie between the old memo and the old memo plus the given URLs. It does not say which of the URLs were added.

## Findings

| source | as written | input that shows it | evidently intended | confidence | as-written member | corrected member |
|---|---|---|---|---|---|---|
| core/wiki.py:139-150 | `WikiError(str(data), self.__last_query)` omits the required `http_code`, so each shape failure raises `TypeError`. `retry_fetch` does not catch it, and the whole fetch aborts. | an answer that is not a dict, e.g. `None` | a `WikiError` with no code, which `retry_fetch` catches and skips | not executed | Wiki.QueryAsWritten, Wiki.ShapeErrorAborts | Wiki.Query |
| core/cache.py:146-148 | `new_time > old_time` compares a float with the adopted dict's raw `__time__`. When that is a string, the form `save` writes (core/cache.py:182), the next mirror that serves a dict raises `TypeError`. A numeric `__time__` is compared raw and raises nothing | two mirrors each answering a dict with `__time__` = `"2024-01-01 10:00"` | compare the adopted copy's parsed time with the new one (still adopting unconditionally when the adopted dict has no `__time__`) and keep the newer | not executed | Cache.NewerAsWritten, Cache.NewerAsWrittenRaises | Cache.FindInMirror |
| core/filemanager.py:15-22 | `isinstance(largs, str)` tests the list, so it is always false and the message is always appended as a new argument | a `JSONDecodeError` with the single argument `"Expecting value"` | append the path to the single message string | not executed | Files.MyExAsWritten, Files.MyExAsWrittenAppends | Files.MyEx |
| core/tsv.py:38-41 | `KeyValueError(f"{k} = {v}")` passes one argument to a two-argument constructor, so a bad title flag raises `TypeError`, which `_parse_val` does not catch | `isOriginalTitle` = `"2"` | `KeyValueError(k, v)`, re-raised by `_parse_val` | not executed | Tsv.ParseKeyValAsWritten, Tsv.ParseValAsWritten, Tsv.TitleErrorAsWritten | Tsv.ParseVal |
| core/wiki.py:176-181 | `obj[k] = v.pop()` empties each one-label list inside the dict that `@cache` keeps for `get_label_dict` (core/wiki.py:183-185); `retry_fetch` puts those very lists into its result. A second `get_names` with the same ids therefore finds no one-label list and returns `{}` | `get_names("tt0111161")` called twice, the label query answering one label | read `v[0]` as `get_filmaffinity` does and leave the memo intact, so each call returns the same names | not executed | Wiki.NamesAsWritten, Wiki.NamesAsWrittenForgets, Wiki.NamesAsWrittenTwice | Wiki.Names, Wiki.NamesAreSingles |
