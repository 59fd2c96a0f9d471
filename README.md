# Incremental access-log tailer: a Dafny model

`log_parser.py` runs as a short batch job. Each run reads only the part of an access log that was
appended since the previous run, counts the matching lines by HTTP route and by status-code class
(`20x`, `30x`, `40x`, `50x`), and saves how far it got. Two small files persist between runs:

- the **offset record** holds the byte position reached in the log;
- the **ctime record** holds the log's creation time as last seen.

A strictly newer creation time means the log was rotated. In that case the offset goes back to 0.

This project models that state machine and proves what it does:

- `PyText` (`pytext.dfy`) covers the Python text operations the code depends on: `str.strip()`,
  `readline()`, `readlines()`, `str(n)` and `int(s)`. It proves `int(str(n)) == n`, that `strip`
  cuts off exactly the surrounding whitespace, and that the lines `readlines()` returns concatenate
  back to the text.
- `Status` (`status.dfy`) covers the `ranges` table and `check_range`. `CheckRange` scans the table
  in any iteration order with an early return. It is proved equal to `StatusClass`, a reference
  definition written separately with the hundreds digit. Codes outside [200, 600) get Python's
  `None`.
- `Counts` (`counts.dfy`) covers dict counters and their increment idiom, plus the sum of a table.
- `Aggregate` (`aggregate.dfy`) covers the counting loop of `process_log` as a function over the
  lines read. Lemmas give exact per-key counts and exact growth of each table's total.
- `LogParser` (`log_parser.dfy`) holds the spec functions for each step, the class `Tailer`, and the
  run-level lemmas:
  - The spec functions cover the records, `set_ctime`, `get_log`, `process_log` and a whole run.
  - `Tailer` holds the module's state (both records, `route_map`, `return_code_map`) and has one
    method per Python function. Each method is proved to change that state exactly as its spec
    function says.
  - The run-level lemmas cover the offset round trip, the rotation rule, first-run bootstrap,
    rotation re-reading the whole log, an idempotent second run, a later run reading exactly the
    appended text, and count totals.

Modelling choices:

- A record is `Option<string>`: `None` when the file does not exist, otherwise its text.
- The log is passed to a run as its contents (one character per byte) plus its creation time. An
  open log is a `Handle(content, pos)`. Seeking past the end is allowed: `readlines()` then returns
  nothing and `tell()` stays at the seek position.
- A creation time is an integer number of ticks of a fixed fraction of a second, for example
  microseconds. Python 2's `str()` on a float writes 12 significant digits. So the ctime record holds
  the time rounded to 12 significant digits (`KeptTime`), written as a count of ticks
  (`ShowTime`). It is read back with the number grammar of `int`.
- The line pattern is a parameter. It maps a line to `None` or to the captured raw route and status
  code. The model itself strips the route, as line 191 does.
- A Python exception that ends the run is a `Fault` value. Any record changes made before it stay in
  place, as they do on disk.

The system's design description promises some things the code does not do. The model follows the
code:

- Status codes. The design says an out-of-range status still counts its route but not its class.
  In the code, `check_range` returns `None`, and lines 196-199 create and increment a `None` entry
  (`OutOfRangeCountsUnderNone`).
- Missing offset record. The design says reading it creates the record and returns 0. The code
  agrees on the value, but the file it creates is empty, not one holding `0`.
- Blank or malformed offset record. The design says a record that is empty or holds only whitespace
  reads as 0, and malformed content is clamped to 0 rather than failing the run. In the code only an
  empty first line or a lone `"\n"` reads as 0. Any other first line goes to `int()`, which raises
  on whitespace or non-numeric text (`BlankLineOffsetRaises`).
- Missing ctime record. The design says this is a bootstrap, not an error. The code matches this,
  but in a roundabout way. `get_ctime` writes `str(nctime)` through an append handle, and the
  `readline()` that follows returns `""`. `set_ctime` then falls back to `ctime = nctime`, so the
  first run sees no rotation.
- Idempotence. The design says a second run with nothing appended counts nothing. The code does this
  only when `str(nctime)` does not round the creation time down. Python 2's `str()` on a float keeps
  12 significant digits, so 1697000000.123456 is stored as `1697000000.12`. Every later run then
  sees `float(nctime) > float(ctime)`, resets the offset, and counts the whole log again
  (`FractionalTimeRoundsDown`, `RoundedDownRunRereadsLog`, `RoundedDownRunNotIdempotent`). The
  lemmas about settled records and idempotence therefore carry the precondition
  `KeptTime(nctime) >= nctime`.

## Model

| member | source | states |
|---|---|---|
| `LogParser.Tailer.constructor` | log_parser.py:26-27 | At import both count tables are empty; the records are whatever exists on disk. |
| `LogParser.Tailer.GetOffset` | log_parser.py:96-110 | A missing offset record is created empty. The value returned is the integer 0 for an empty or `"\n"` first line, otherwise the first line as text. |
| `LogParser.Tailer.SetOffset` | log_parser.py:112-127 | The whole offset record becomes `'0'` on reset, otherwise the decimal text of the handle's position. |
| `LogParser.Tailer.GetCtime` | log_parser.py:129-146 | A missing ctime record is created holding `str(nctime)` and `""` is returned; otherwise the record's first line is returned and nothing changes. |
| `LogParser.Tailer.SetCtime` | log_parser.py:148-162 | The records change exactly as `Reconcile` says: the offset is reset and the new ctime stored only on a strictly newer creation time, and unreadable stored text raises. |
| `LogParser.Tailer.GetLog` | log_parser.py:164-174 | Reconciles the creation time before reading the offset, then opens the log at `int(offset)`. Non-numeric text or a negative position raises, keeping any records already created. |
| `LogParser.Tailer.CountLine` | log_parser.py:188-199 | One loop iteration: a matching line adds one to its stripped route and one to its status class (`None` outside the ranges); a non-matching line changes nothing. |
| `LogParser.Tailer.ProcessLog` | log_parser.py:176-202 | The tables become the counts over every line from the read position to the end of the log; then the offset record holds the position reached. |
| `LogParser.Tailer.RunOnce` | log_parser.py:249-250 | One run (`get_log` then `process_log`) changes the state exactly as `Run` says, or stops at the first fault. |
| `LogParser.ReadRest` | log_parser.py:186 | `readlines()` from the read position returns lines that concatenate to the rest of the log, and no lines when the position is at or past the end. |
| `LogParser.EndPosition` | log_parser.py:186 | `tell()` after `readlines()` is the end of the log, or the seek position if that lies past the end. |
| `LogParser.OffsetRoundTrip` | log_parser.py:102-127 | What `set_offset` writes, `get_offset` followed by `int` reads back unchanged: the handle's position, or 0 after a reset. |
| `LogParser.BlankOffsetReadsZero` | log_parser.py:102-109 | A missing record, or one whose first line is empty or `"\n"`, reads as 0; a missing record is created empty. |
| `LogParser.BlankLineOffsetRaises` | log_parser.py:106-109 | Any first line other than `""` and `"\n"` that holds only whitespace is handed on as text, and `int` on it raises instead of giving 0. |
| `LogParser.RotationRule` | log_parser.py:154-162 | Against a stored time `p`: a strictly newer time resets the offset to `"0"` and stores the new time; an equal or older one changes neither record. |
| `LogParser.FirstRunBootstrap` | log_parser.py:139-158 | With no ctime record, the record is created from the current creation time, no rotation is seen, and the offset record is untouched. |
| `LogParser.SettledNoRotation` | log_parser.py:155-158 | A ctime record whose first line is empty, or a time no older than the current one, causes no rotation and no record change. |
| `LogParser.ReconcileLeavesSettled` | log_parser.py:139-162 | After a `set_ctime` that did not raise, the ctime record is settled for the same creation time, provided `str(nctime)` does not read back as an earlier time. |
| `LogParser.ReconcileSettles` | log_parser.py:148-162 | If `str(nctime)` does not read back as an earlier time, reconciling twice with the same creation time sees no rotation the second time, whatever happened to the offset record in between. |
| `LogParser.WrittenTimeSettled` | log_parser.py:143-161 | The text written for `nctime` is a settled record for `nctime` whenever `float(str(nctime))` is not below `nctime`. |
| `LogParser.RoundedDownCtimeRotatesAgain` | log_parser.py:155-162 | When `float(str(nctime))` is below `nctime`, the record written for `nctime` is taken for a rotation by every later `set_ctime` with the same `nctime`: the offset is reset to `"0"` and the same text is written again. |
| `LogParser.FreshRunStartsAtZero` | log_parser.py:170-174 | On fresh state `get_log` creates both records and positions the log at 0. |
| `LogParser.RotatedLogReadFromStart` | log_parser.py:170-174 | After a rotation the log is read from 0, whatever the offset record held, including text `int` would reject. |
| `LogParser.ResumeAtSavedOffset` | log_parser.py:170-174 | With no rotation, `get_log` positions the log at the offset a previous run stored. |
| `LogParser.OpenSettled` | log_parser.py:164-174 | With a settled ctime record and a stored offset, `get_log` resumes there and changes no record. |
| `LogParser.RunCounts` | log_parser.py:186-201 | After a run, the offset record holds the end position, the tables are the counts over the lines read, and each table's total grew by exactly the number of matching lines. |
| `LogParser.RunLeavesSettled` | log_parser.py:154-201 | After a successful run, if `str(nctime)` does not read back as an earlier time, the ctime record is settled for the same creation time, and the offset record holds the position `tell()` gave. |
| `LogParser.RunFromSettled` | log_parser.py:170-201 | With a settled ctime record and a stored position, a run counts the lines from that position on and changes no record except the offset. |
| `LogParser.RunIdempotent` | log_parser.py:170-201 | If `str(nctime)` does not read back as an earlier time, a second run on an unchanged log with the same creation time reads nothing, counts nothing, and leaves the state as it was. |
| `LogParser.RunReadsAppended` | log_parser.py:170-201 | If `str(nctime)` does not read back as an earlier time, then after text is appended the next run counts exactly the lines of the appended text and stores the new end of the log. |
| `LogParser.RotationRereadsWholeLog` | log_parser.py:154-201 | After a rotation the run counts every line of the new log and stores its length, whatever offset was stored. |
| `LogParser.RoundedDownRunRereadsLog` | log_parser.py:143-201 | When `float(str(nctime))` is below `nctime`, a run from the record written for `nctime` counts the whole log again and leaves the same records, so the next run does the same. |
| `LogParser.RoundedDownRunNotIdempotent` | log_parser.py:143-201 | From fresh state, with a creation time that `str` rounds down, the second run on an unchanged log counts every line again instead of none. |
| `LogParser.FirstRunOneLine` | log_parser.py:176-201 | On fresh state, a one-line log that matches leaves `{route: 1}` and `{class: 1}` and an offset at the end of the line. |
| `Status.StatusClass` | log_parser.py:39-42 | The reference class of a code is a key of the table whose range holds it; when there is no class, no range holds it. |
| `Status.RangesDisjoint` | log_parser.py:39-42 | The four ranges do not overlap. |
| `Status.CheckRange` | log_parser.py:83-94 | For every iteration order of the table's keys, the early-return scan returns the class `StatusClass` names, and `None` outside [200, 600). |
| `Status.StatusClassTable` | log_parser.py:39-42 | 200–299 give `20x`, 300–399 `30x`, 400–499 `40x`, 500–599 `50x`; 199 and 600 give no class (as log_parser_tests.py:24-26 expects for 202). |
| `Counts.Bump` | log_parser.py:193-195 | Incrementing adds one to the key's count (starting from 0 when absent), adds the key, and leaves every other entry alone. |
| `Counts.Increment` | log_parser.py:193-199 | The two-statement idiom `if k not in m: m[k] = 0; m[k] = m[k] + 1` is exactly one `Bump`. |
| `Counts.TotalBump` | log_parser.py:195 | One increment raises a table's total by exactly one. |
| `Aggregate.TallyRouteCounts` | log_parser.py:188-195 | After the loop, each route's count is its old count plus the number of matching lines with that stripped route; a route has an entry exactly when it had one or such a line exists. |
| `Aggregate.TallyClassCounts` | log_parser.py:196-199 | After the loop, each class's count (the `None` key included) is its old count plus the number of matching lines of that class; the entry exists exactly when it did before or such a line exists. |
| `Aggregate.TallyTotals` | log_parser.py:188-199 | Each table's total grows by exactly the number of matching lines. |
| `Aggregate.OutOfRangeCountsUnderNone` | log_parser.py:196-199 | A matching line with a code outside [200, 600) adds one under the `None` key and changes no other class. |
| `PyText.Strip` | log_parser.py:191 | `strip()` leaves text that neither starts nor ends with whitespace. |
| `PyText.StripSlice` | log_parser.py:191 | `strip()` returns the slice left after cutting off only whitespace at both ends. |
| `PyText.StripIdempotent` | log_parser.py:191 | Stripping an already stripped route changes nothing. |
| `PyText.FirstLine` | log_parser.py:106 | `readline()` returns a prefix that runs up to and including the first newline, or the whole text when there is none. |
| `PyText.SplitLines` | log_parser.py:186 | The lines `readlines()` returns concatenate back to the text read. |
| `PyText.SplitLinesEndings` | log_parser.py:186 | Every line is non-empty and holds no newline before its last character, and every line except the last ends in a newline. |
| `PyText.SingleLine` | log_parser.py:186 | Text whose only newline is its last character is read as one line. |
| `PyText.ShowNat` | log_parser.py:125 | `str(n)` of a non-negative integer is a non-empty string of decimal digits. |
| `PyText.ShowInt` | log_parser.py:143 | `str(i)` is non-empty and holds no whitespace. |
| `PyText.ShowNatValue` | log_parser.py:125 | The digits `str(n)` writes have the value `n`. |
| `PyText.ParseShowInt` | log_parser.py:125 | `int(str(i)) == i` for every integer. |
| `PyText.ParseIntGrammar` | log_parser.py:173 | `int` accepts exactly the text that, once stripped, is one or more decimal digits with at most one leading sign, and gives their value, negated after `-`. |
| `PyText.Round12` | log_parser.py:161 | A value of at most 12 digits is kept as it is; a longer one becomes the nearest multiple of the unit of its twelfth digit. |
| `PyText.ShortTimeKept` | log_parser.py:161 | A creation time of at most 12 digits is written exactly by `str`. |
| `PyText.FractionalTimeRoundsDown` | log_parser.py:158-161 | 1697000000.123456 seconds is written as `1697000000.12`, which reads back as a strictly earlier time. |
| `PyText.ParseShowTime` | log_parser.py:143-158 | Reading the ctime text back gives the time `str` kept, and `readline()` returns all of that text. |
| `PyText.FirstLineShowInt` | log_parser.py:144 | A record holding `str(i)` has no newline, so `readline()` returns all of it. |

## Left out

- `get_lock` and `release_lock` (log_parser.py:44-81) are left out. They are OS advisory file locking between processes, which this sequential model does not represent. The model assumes a run holds the lock throughout.
- The line regular expression (log_parser.py:29-32, 189) is not modelled. It is a parameter of type `Extractor`, from a line to an optional raw route and status code.
- `os.path.getctime` (log_parser.py:154) is not modelled. The log's creation time is a parameter of each run.
- Floating-point creation times are modelled as integer ticks. `str()` is modelled by rounding to 12 significant digits with halves rounded up. Python rounds the binary value, which can differ on exact decimal ties. The text is the count of ticks, not Python's decimal-point or exponent form, and `float()` on it is modelled by the integer grammar of `int()`. `inf` and `nan` are left out.
- ReconcileLeavesSettled: proved only when `KeptTime(nctime) >= nctime`. When `str(nctime)` rounds the time down, the record is not settled, as `RoundedDownCtimeRotatesAgain` proves.
- ReconcileSettles: proved only when `KeptTime(nctime) >= nctime`. Otherwise every later reconciliation is a rotation (`RoundedDownCtimeRotatesAgain`).
- RunLeavesSettled: proved only when `KeptTime(nctime) >= nctime`. Otherwise the run leaves a record that the next run takes for a rotation (`RoundedDownRunRereadsLog`).
- RunIdempotent: proved only when `KeptTime(nctime) >= nctime`. Otherwise the second run counts the whole log again (`RoundedDownRunNotIdempotent`).
- RunReadsAppended: proved only when `KeptTime(nctime) >= nctime`. Otherwise the next run re-reads the whole log, appended text included (`RoundedDownRunRereadsLog`).
- The seek at log_parser.py:173 can fail in ways that are not modelled. `f.seek(int(o))` raises `OverflowError` for an offset of 2^63 or more. `OpenLog` only rejects negative positions and opens a `Handle` at any larger one.
- Opening the log and reading its contents are I/O. The contents are a parameter. A missing log, or any other I/O or permission error when opening a file, is not modelled. For a missing log, `getctime` raises before any record is touched.
- `print_statsd_messages` (log_parser.py:204-213) is left out. It is stdout output whose order depends on dict iteration.
- The `__main__` block (log_parser.py:215-252) is left out: option parsing, reassigning the file-name globals, and deleting the state files on `--reset`. Only its `get_log` then `process_log` sequence is modelled, as `RunOnce`.
- Python 2 dict iteration order is unknown, so `process_log` uses one fixed key order for `check_range`. `CheckRange` is proved for every order.
- Python 2 `int()` grammar beyond "whitespace, optional sign, decimal digits" is left out.
- The fixture counts in log_parser_tests.py:71-78 are not checked. They depend on a sample log that is not part of this model.
