/**
 * The incremental log-tail state machine of `log_parser.py`.
 *
 * Between runs two records persist: the offset record (the byte position
 * reached in the log) and the ctime record (the log's creation time as last
 * seen). Each run compares the log's creation time with the stored one (a
 * strictly newer one is a rotation and resets the offset to 0), reads the
 * stored offset, reads every line from there to the end of the log, counts
 * the matching lines by route and by status class, and stores the position
 * reached as the new offset.
 *
 * The pure functions below say what each step does to the records and the
 * tables; the class `Tailer` performs the steps on its fields, one method per
 * Python function, and each method is proved to do what its function says.
 */
module LogParser {
  import opened Wrappers
  import opened PyText
  import opened Aggregate
  import Status
  import Counts

  /** Exceptions a run can raise once it has started touching the records. */
  datatype Fault =
    | BadCtime(line: string)   // `float(ctime)` raised: the ctime record does not hold a number
    | BadOffset(line: string)  // `int(o)` raised: the offset record does not hold an integer
    | NegativeSeek(pos: int)   // `f.seek(pos)` raised: a negative position

  /** How a step that returns nothing in Python ended: normally, or by raising. */
  datatype Outcome = Pass | Fail(fault: Fault)

  /** The text of the offset and ctime records; `None` when the file does not exist. */
  datatype Records = Records(offset: Option<string>, ctime: Option<string>)

  /** Everything a run reads and changes: the records and the two count tables. */
  datatype State = State(records: Records, tables: Tables)

  /** What `get_offset` returns: the integer 0, or the first line of the record as text. */
  datatype Stored = Zero | Text(line: string)

  /** An open log file: the contents it had when opened and the read position. */
  datatype Handle = Handle(content: string, pos: nat)

  // ------------------------------------------------------------ offset record

  /** `get_offset` opens the record with `'a+'` when `'r+'` fails, creating it empty. */
  function OpenedOffset(rec: Option<string>): Option<string>
  {
    if rec.None? then Some("") else rec
  }

  /** What `get_offset` returns for the record as it was before the call. */
  function StoredOffset(rec: Option<string>): Stored
  {
    var line := FirstLine(rec.GetOr(""));
    if |line| == 0 || line == "\n" then Zero else Text(line)
  }

  /** `int(o)` on what `get_offset` returned; `None` when it raises. */
  function OffsetValue(o: Stored): Option<int>
  {
    match o
    case Zero => Some(0)
    case Text(line) => ParseInt(line)
  }

  /** The whole text `set_offset` writes: `'0'` on reset, otherwise `str(f.tell())`. */
  function OffsetText(f: Option<Handle>, reset: bool): string
    requires reset || f.Some?
  {
    if reset then "0" else ShowNat(f.value.pos)
  }

  // ------------------------------------------------------------- ctime record

  /** `get_ctime` creates a missing record holding `str(nctime)`. */
  function OpenedCtime(rec: Option<string>, nctime: int): Option<string>
  {
    if rec.None? then Some(ShowTime(nctime)) else rec
  }

  /**
   * What `get_ctime` returns: the record's first line, or "" when it has just
   * created the record (the read position is then at the end of what it wrote).
   */
  function CtimeLine(rec: Option<string>): string
  {
    if rec.None? then "" else FirstLine(rec.value)
  }

  /**
   * `set_ctime`: the records after comparing the log's creation time `nctime`
   * with the stored one, and whether `float` raised on the stored text.
   */
  function Reconcile(recs: Records, nctime: int): (Records, Outcome)
  {
    var line := CtimeLine(recs.ctime);
    var withRecord := recs.(ctime := OpenedCtime(recs.ctime, nctime));
    var previous := if line == "" then Some(nctime) else ParseInt(line);
    if previous.None? then (withRecord, Fail(BadCtime(line)))
    else if nctime > previous.value then (Records(Some(OffsetText(None, true)), Some(ShowTime(nctime))), Pass)
    else (withRecord, Pass)
  }

  // -------------------------------------------------------------------- run

  /** `get_log`: reconcile, read the offset, open the log and seek to the offset. */
  function OpenLog(recs: Records, nctime: int, content: string): (Records, Result<Handle, Fault>)
  {
    var (reconciled, outcome) := Reconcile(recs, nctime);
    if outcome.Fail? then (reconciled, Failure(outcome.fault))
    else
      var withRecord := reconciled.(offset := OpenedOffset(reconciled.offset));
      var stored := StoredOffset(reconciled.offset);
      match OffsetValue(stored)
      case None => (withRecord, Failure(BadOffset(stored.line)))
      case Some(n) => if n < 0 then (withRecord, Failure(NegativeSeek(n))) else (withRecord, Success(Handle(content, n)))
  }

  /** `f.readlines()`: the lines from the read position on; none past the end. */
  function ReadRest(f: Handle): (lines: seq<string>)
    ensures f.pos <= |f.content| ==> Flatten(lines) == f.content[f.pos..]
    ensures f.pos >= |f.content| ==> lines == []
  {
    if f.pos <= |f.content| then SplitLines(f.content[f.pos..]) else []
  }

  /** `f.tell()` after `f.readlines()`: the end of the log, or the seek position past it. */
  function EndPosition(f: Handle): (end: nat)
    ensures end >= |f.content| && end >= f.pos
    ensures end == |f.content| || end == f.pos
  {
    if f.pos <= |f.content| then |f.content| else f.pos
  }

  /** `process_log(f)`: count the remaining lines, then store the position reached. */
  function Process(s: State, f: Handle, extract: Extractor): State
  {
    State(s.records.(offset := Some(OffsetText(Some(Handle(f.content, EndPosition(f))), false))),
          Tally(s.tables, ReadRest(f), extract))
  }

  /** One run, `get_log()` then `process_log(f)`, on a log with creation time `nctime` and contents `content`. */
  function Run(s: State, nctime: int, content: string, extract: Extractor): (State, Outcome)
  {
    var (recs, result) := OpenLog(s.records, nctime, content);
    match result
    case Failure(fault) => (State(recs, s.tables), Fail(fault))
    case Success(f) => (Process(State(recs, s.tables), f, extract), Pass)
  }

  // ------------------------------------------------------------- properties

  /**
   * What `set_offset` writes, `get_offset` followed by `int` reads back: the
   * position of the handle, or 0 after a reset; the record is left as written.
   */
  lemma OffsetRoundTrip(f: Handle)
    ensures OpenedOffset(Some(OffsetText(Some(f), false))) == Some(OffsetText(Some(f), false))
    ensures OffsetValue(StoredOffset(Some(OffsetText(Some(f), false)))) == Some(f.pos)
    ensures OffsetValue(StoredOffset(Some(OffsetText(None, true)))) == Some(0)
  {
    var text := OffsetText(Some(f), false);
    assert text == ShowInt(f.pos);
    FirstLineShowInt(f.pos);
    ParseShowInt(f.pos);
    assert text != "\n" by { assert IsDigit(text[0]); }
    assert OffsetText(None, true) == ShowInt(0);
    FirstLineShowInt(0);
    ParseShowInt(0);
  }

  /**
   * A missing record is created empty and read as 0; so is a record whose
   * first line is empty or a lone newline.
   */
  lemma BlankOffsetReadsZero(rec: Option<string>)
    requires rec.None? || FirstLine(rec.value) == "" || FirstLine(rec.value) == "\n"
    ensures OffsetValue(StoredOffset(rec)) == Some(0)
    ensures OpenedOffset(rec) == if rec.None? then Some("") else rec
  {
  }

  /**
   * Any other first line is handed to `int` as it stands: one holding only
   * whitespace makes `int` raise instead of reading 0.
   */
  lemma BlankLineOffsetRaises(rec: Option<string>)
    requires rec.Some? && FirstLine(rec.value) != "" && FirstLine(rec.value) != "\n"
    requires forall c :: c in FirstLine(rec.value) ==> IsSpace(c)
    ensures StoredOffset(rec) == Text(FirstLine(rec.value))
    ensures OffsetValue(StoredOffset(rec)) == None
  {
    assert Strip(FirstLine(rec.value)) == [];
  }

  /**
   * The rotation rule: against a stored creation time `p`, a strictly newer
   * `nctime` resets the offset record to "0" and stores `nctime`; an equal or
   * older one changes neither record.
   */
  lemma RotationRule(recs: Records, p: int, nctime: int)
    requires recs.ctime == Some(ShowInt(p))
    ensures nctime > p ==> Reconcile(recs, nctime) == (Records(Some("0"), Some(ShowTime(nctime))), Pass)
    ensures nctime <= p ==> Reconcile(recs, nctime) == (recs, Pass)
  {
    FirstLineShowInt(p);
    ParseShowInt(p);
  }

  /**
   * First run: with no ctime record, the record is created from the current
   * creation time, no rotation is seen and the offset record is untouched.
   */
  lemma FirstRunBootstrap(recs: Records, nctime: int)
    requires recs.ctime.None?
    ensures Reconcile(recs, nctime) == (Records(recs.offset, Some(ShowTime(nctime))), Pass)
  {
  }

  /**
   * A ctime record that `set_ctime` treats as "no rotation" for `nctime`: its
   * first line is empty, or a number no older than `nctime`.
   */
  predicate Settled(rec: Option<string>, nctime: int)
  {
    && rec.Some?
    && (var line := FirstLine(rec.value);
        line == "" || (ParseInt(line).Some? && ParseInt(line).value >= nctime))
  }

  /** A settled ctime record means no rotation and no change to either record. */
  lemma SettledNoRotation(recs: Records, nctime: int)
    requires Settled(recs.ctime, nctime)
    ensures Reconcile(recs, nctime) == (recs, Pass)
  {
  }

  /**
   * After a reconciliation that did not raise, the ctime record is settled
   * for the same time, provided `str(nctime)` does not read back as an
   * earlier time (`RoundedDownCtimeRotatesAgain` is the other case).
   */
  lemma ReconcileLeavesSettled(recs: Records, nctime: int)
    requires Reconcile(recs, nctime).1 == Pass
    requires KeptTime(nctime) >= nctime
    ensures Settled(Reconcile(recs, nctime).0.ctime, nctime)
  {
    var line := CtimeLine(recs.ctime);
    if recs.ctime.None? || (line != "" && nctime > ParseInt(line).value) {
      assert Reconcile(recs, nctime).0.ctime == Some(ShowTime(nctime));
      WrittenTimeSettled(nctime);
    } else {
      assert Reconcile(recs, nctime).0.ctime == recs.ctime;
    }
  }

  /** The text written for `nctime` is settled for it unless `str` rounded it down. */
  lemma WrittenTimeSettled(nctime: int)
    requires KeptTime(nctime) >= nctime
    ensures Settled(Some(ShowTime(nctime)), nctime)
  {
    var text := ShowTime(nctime);
    ParseShowTime(nctime);
    assert FirstLine(text) == text;
    assert ParseInt(text).Some? && ParseInt(text).value >= nctime;
    var rec := Some(text);
    assert FirstLine(rec.value) == text;
  }

  /**
   * Reconciling again with the same creation time, whatever became of the
   * offset record in between, sees no rotation and changes nothing.
   */
  lemma ReconcileSettles(recs: Records, later: Records, nctime: int)
    requires Reconcile(recs, nctime).1 == Pass
    requires KeptTime(nctime) >= nctime
    requires later.ctime == Reconcile(recs, nctime).0.ctime
    ensures Reconcile(later, nctime) == (later, Pass)
  {
    ReconcileLeavesSettled(recs, nctime);
    SettledNoRotation(later, nctime);
  }

  /**
   * When `str(nctime)` reads back as an earlier time, the record `set_ctime`
   * or `get_ctime` wrote for `nctime` is seen as a rotation by every later
   * reconciliation with the same `nctime`: the offset is reset each time and
   * the same text stored again.
   */
  lemma RoundedDownCtimeRotatesAgain(recs: Records, nctime: int)
    requires recs.ctime == Some(ShowTime(nctime)) && KeptTime(nctime) < nctime
    ensures Reconcile(recs, nctime) == (Records(Some("0"), Some(ShowTime(nctime))), Pass)
  {
    RotationRule(recs, KeptTime(nctime), nctime);
  }

  /** On fresh state `get_log` creates both records and positions the log at 0. */
  lemma FreshRunStartsAtZero(nctime: int, content: string)
    ensures OpenLog(Records(None, None), nctime, content)
         == (Records(Some(""), Some(ShowTime(nctime))), Success(Handle(content, 0)))
  {
  }

  /**
   * After a rotation `get_log` positions the new log at 0, whatever the
   * offset record held, even text `int` would reject.
   */
  lemma RotatedLogReadFromStart(recs: Records, p: int, nctime: int, content: string)
    requires recs.ctime == Some(ShowInt(p)) && nctime > p
    ensures OpenLog(recs, nctime, content)
         == (Records(Some("0"), Some(ShowTime(nctime))), Success(Handle(content, 0)))
  {
    RotationRule(recs, p, nctime);
    OffsetRoundTrip(Handle(content, 0));
  }

  /** Without a rotation `get_log` positions the log at the offset a previous run stored. */
  lemma ResumeAtSavedOffset(recs: Records, p: int, n: nat, nctime: int, content: string)
    requires recs == Records(Some(ShowNat(n)), Some(ShowInt(p))) && nctime <= p
    ensures OpenLog(recs, nctime, content) == (recs, Success(Handle(content, n)))
  {
    RotationRule(recs, p, nctime);
    OffsetRoundTrip(Handle(content, n));
  }

  /**
   * A successful run reads every line from the position it resumed at, adds
   * exactly the matching ones to each table's total, and stores the end of
   * the log (or the position, if it was past the end) as the new offset.
   */
  lemma RunCounts(s: State, nctime: int, content: string, extract: Extractor)
    requires Run(s, nctime, content, extract).1 == Pass
    ensures OpenLog(s.records, nctime, content).1.Success?
    ensures (var f := OpenLog(s.records, nctime, content).1.value;
             var after := Run(s, nctime, content, extract).0;
             && after.records.offset == Some(ShowNat(EndPosition(f)))
             && after.tables == Tally(s.tables, ReadRest(f), extract)
             && Counts.Total(after.tables.routes) == Counts.Total(s.tables.routes) + Matches(ReadRest(f), extract)
             && Counts.Total(after.tables.codes) == Counts.Total(s.tables.codes) + Matches(ReadRest(f), extract))
  {
    var f := OpenLog(s.records, nctime, content).1.value;
    TallyTotals(s.tables, ReadRest(f), extract);
  }

  /** With no rotation pending, `get_log` resumes at the stored position and changes no record. */
  lemma OpenSettled(recs: Records, n: nat, nctime: int, content: string)
    requires Settled(recs.ctime, nctime) && recs.offset == Some(ShowNat(n))
    ensures OpenLog(recs, nctime, content) == (recs, Success(Handle(content, n)))
  {
    SettledNoRotation(recs, nctime);
    OffsetRoundTrip(Handle(content, n));
  }

  /**
   * After a successful run the ctime record is settled for the same creation
   * time and the offset record holds the position `tell()` gave.
   */
  lemma RunLeavesSettled(s: State, nctime: int, content: string, extract: Extractor)
    requires Run(s, nctime, content, extract).1 == Pass
    requires KeptTime(nctime) >= nctime
    ensures OpenLog(s.records, nctime, content).1.Success?
    ensures (var after := Run(s, nctime, content, extract).0;
             && Settled(after.records.ctime, nctime)
             && after.records.offset == Some(ShowNat(EndPosition(OpenLog(s.records, nctime, content).1.value))))
  {
    ReconcileLeavesSettled(s.records, nctime);
  }

  /** A run whose `get_log` resumes at `pos` with no record change counts the lines from `pos` on. */
  lemma RunFromSettled(s: State, pos: nat, nctime: int, content: string, extract: Extractor)
    requires Settled(s.records.ctime, nctime) && s.records.offset == Some(ShowNat(pos))
    ensures Run(s, nctime, content, extract)
         == (Process(s, Handle(content, pos), extract), Pass)
  {
    OpenSettled(s.records, pos, nctime, content);
  }

  /**
   * A second run on the same log with the same creation time reads no line,
   * counts nothing and leaves every record as the first run left it.
   */
  lemma RunIdempotent(s: State, nctime: int, content: string, extract: Extractor)
    requires Run(s, nctime, content, extract).1 == Pass
    requires KeptTime(nctime) >= nctime
    ensures Run(Run(s, nctime, content, extract).0, nctime, content, extract)
         == (Run(s, nctime, content, extract).0, Pass)
  {
    RunLeavesSettled(s, nctime, content, extract);
    var s1 := Run(s, nctime, content, extract).0;
    var end := EndPosition(OpenLog(s.records, nctime, content).1.value);
    RunFromSettled(s1, end, nctime, content, extract);
    assert ReadRest(Handle(content, end)) == [] by {
      if end == |content| {
        assert content[end..] == [];
      }
    }
    assert EndPosition(Handle(content, end)) == end;
  }

  /**
   * When text `more` is appended after a run that started inside the log,
   * the next run reads exactly the lines of `more` and stores the new end.
   */
  lemma RunReadsAppended(s: State, nctime: int, content: string, more: string, extract: Extractor)
    requires Run(s, nctime, content, extract).1 == Pass
    requires KeptTime(nctime) >= nctime
    requires OpenLog(s.records, nctime, content).1.value.pos <= |content|
    ensures (var s1 := Run(s, nctime, content, extract).0;
             Run(s1, nctime, content + more, extract)
             == (State(s1.records.(offset := Some(ShowNat(|content + more|))), Tally(s1.tables, SplitLines(more), extract)), Pass))
  {
    RunLeavesSettled(s, nctime, content, extract);
    var s1 := Run(s, nctime, content, extract).0;
    assert s1.records.offset == Some(ShowNat(|content|));
    RunFromSettled(s1, |content|, nctime, content + more, extract);
    var f := Handle(content + more, |content|);
    assert (content + more)[|content|..] == more;
    assert ReadRest(f) == SplitLines(more);
    assert EndPosition(f) == |content + more|;
  }

  /**
   * After a rotation the run re-reads the whole new log, whatever offset was
   * stored, counts all of its lines and stores its length.
   */
  lemma RotationRereadsWholeLog(s: State, p: int, nctime: int, content: string, extract: Extractor)
    requires s.records.ctime == Some(ShowInt(p)) && nctime > p
    ensures Run(s, nctime, content, extract)
         == (State(Records(Some(ShowNat(|content|)), Some(ShowTime(nctime))), Tally(s.tables, SplitLines(content), extract)), Pass)
  {
    RotatedLogReadFromStart(s.records, p, nctime, content);
    assert content[0..] == content;
  }

  /**
   * When `str(nctime)` reads back as an earlier time, a run from the record
   * written for `nctime` takes the log for rotated: it counts the whole log
   * again and leaves the same records, so the next run does the same.
   */
  lemma RoundedDownRunRereadsLog(s: State, nctime: int, content: string, extract: Extractor)
    requires s.records.ctime == Some(ShowTime(nctime)) && KeptTime(nctime) < nctime
    ensures Run(s, nctime, content, extract)
         == (State(Records(Some(ShowNat(|content|)), Some(ShowTime(nctime))), Tally(s.tables, SplitLines(content), extract)), Pass)
  {
    RotationRereadsWholeLog(s, KeptTime(nctime), nctime, content, extract);
  }

  /**
   * From fresh state, with a creation time `str` rounds down, the second run
   * on an unchanged log counts every line of it again instead of none.
   */
  lemma RoundedDownRunNotIdempotent(tables: Tables, nctime: int, content: string, extract: Extractor)
    requires KeptTime(nctime) < nctime
    ensures (var s1 := Run(State(Records(None, None), tables), nctime, content, extract).0;
             Run(s1, nctime, content, extract) == (State(s1.records, Tally(s1.tables, SplitLines(content), extract)), Pass))
  {
    var s := State(Records(None, None), tables);
    FreshRunStartsAtZero(nctime, content);
    assert content[0..] == content;
    var s1 := Run(s, nctime, content, extract).0;
    assert s1.records == Records(Some(ShowNat(|content|)), Some(ShowTime(nctime)));
    RoundedDownRunRereadsLog(s1, nctime, content, extract);
  }

  /**
   * The first run on a log of one line that the pattern matches: one count
   * for its stripped route, one for its status class, and the offset stored
   * at the end of the line.
   */
  lemma FirstRunOneLine(nctime: int, line: string, extract: Extractor)
    requires line != [] && line[|line| - 1] == '\n' && '\n' !in line[..|line| - 1]
    requires extract(line).Some?
    ensures (var e := extract(line).value;
             Run(State(Records(None, None), Tables(map[], map[])), nctime, line, extract)
             == (State(Records(Some(ShowNat(|line|)), Some(ShowTime(nctime))),
                       Tables(map[Strip(e.rawRoute) := 1], map[Status.StatusClass(e.status) := 1])), Pass))
  {
    FreshRunStartsAtZero(nctime, line);
    SingleLine(line);
    assert line[0..] == line;
    assert ReadRest(Handle(line, 0)) == [line];
    var e := extract(line).value;
    var empty := Tables(map[], map[]);
    assert Tally(empty, [line], extract) == TallyLine(empty, line, extract);
    assert Counts.Bump(empty.routes, Strip(e.rawRoute)) == map[Strip(e.rawRoute) := 1];
    assert Counts.Bump(empty.codes, Status.StatusClass(e.status)) == map[Status.StatusClass(e.status) := 1];
  }

  // ------------------------------------------------------------------ state

  /**
   * The module-level state of `log_parser.py`: the two record files and the
   * `route_map` and `return_code_map` dicts, with one method per function.
   */
  class Tailer {
    var offsetRecord: Option<string>
    var ctimeRecord: Option<string>
    var routeMap: map<string, int>
    var returnCodeMap: map<Option<string>, int>

    function Persisted(): Records
      reads this
    {
      Records(offsetRecord, ctimeRecord)
    }

    function Snapshot(): State
      reads this
    {
      State(Records(offsetRecord, ctimeRecord), Tables(routeMap, returnCodeMap))
    }

    /** The module as imported: the records as found on disk, both tables empty. */
    constructor (offsetRecord: Option<string>, ctimeRecord: Option<string>)
      ensures Snapshot() == State(Records(offsetRecord, ctimeRecord), Tables(map[], map[]))
    {
      this.offsetRecord := offsetRecord;
      this.ctimeRecord := ctimeRecord;
      routeMap := map[];
      returnCodeMap := map[];
    }

    /** `get_offset()`. */
    method GetOffset() returns (o: Stored)
      modifies this`offsetRecord
      ensures offsetRecord == OpenedOffset(old(offsetRecord))
      ensures o == StoredOffset(old(offsetRecord))
    {
      if offsetRecord.None? {
        offsetRecord := Some("");
      }
      var line := FirstLine(offsetRecord.value);
      if |line| == 0 || line == "\n" {
        o := Zero;
      } else {
        o := Text(line);
      }
    }

    /** `set_offset(f, reset)`: overwrite the whole record. */
    method SetOffset(f: Option<Handle>, reset: bool)
      requires reset || f.Some?
      modifies this`offsetRecord
      ensures offsetRecord == Some(OffsetText(f, reset))
    {
      var newOffset: string;
      if reset {
        newOffset := "0";
      } else {
        newOffset := ShowNat(f.value.pos);
      }
      offsetRecord := Some(newOffset);
    }

    /** `get_ctime(nctime)`. */
    method GetCtime(nctime: int) returns (line: string)
      modifies this`ctimeRecord
      ensures ctimeRecord == OpenedCtime(old(ctimeRecord), nctime)
      ensures line == CtimeLine(old(ctimeRecord))
    {
      if ctimeRecord.None? {
        ctimeRecord := Some(ShowTime(nctime));
        line := "";
      } else {
        line := FirstLine(ctimeRecord.value);
      }
    }

    /** `set_ctime()`, with the log's creation time `nctime` passed in. */
    method SetCtime(nctime: int) returns (r: Outcome)
      modifies this`offsetRecord, this`ctimeRecord
      ensures (Persisted(), r) == Reconcile(old(Persisted()), nctime)
    {
      var line := GetCtime(nctime);
      var previous: int;
      if line == "" {
        previous := nctime;
      } else {
        var parsed := ParseInt(line);
        if parsed.None? {
          return Fail(BadCtime(line));
        }
        previous := parsed.value;
      }
      if nctime > previous {
        SetOffset(None, true);
        ctimeRecord := Some(ShowTime(nctime));
      }
      r := Pass;
    }

    /** `get_log()`, for a log whose creation time is `nctime` and whose contents are `content`. */
    method GetLog(nctime: int, content: string) returns (r: Result<Handle, Fault>)
      modifies this`offsetRecord, this`ctimeRecord
      ensures (Persisted(), r) == OpenLog(old(Persisted()), nctime, content)
    {
      var outcome := SetCtime(nctime);
      if outcome.Fail? {
        return Failure(outcome.fault);
      }
      var o := GetOffset();
      var pos: int;
      match o {
        case Zero =>
          pos := 0;
        case Text(line) =>
          var parsed := ParseInt(line);
          if parsed.None? {
            return Failure(BadOffset(line));
          }
          pos := parsed.value;
      }
      if pos < 0 {
        return Failure(NegativeSeek(pos));
      }
      r := Success(Handle(content, pos));
    }

    /** The body of the loop in `process_log`: count one line if it matches. */
    method CountLine(line: string, extract: Extractor)
      modifies this`routeMap, this`returnCodeMap
      ensures Tables(routeMap, returnCodeMap) == TallyLine(old(Tables(routeMap, returnCodeMap)), line, extract)
    {
      var m := extract(line);
      if m.Some? {
        var route := Strip(m.value.rawRoute);
        routeMap := Counts.Increment(routeMap, route);
        var code := Status.CheckRange(m.value.status, Status.KeyOrder);
        returnCodeMap := Counts.Increment(returnCodeMap, code);
      }
    }

    /** `process_log(f)`. */
    method ProcessLog(f: Handle, extract: Extractor)
      modifies this`offsetRecord, this`routeMap, this`returnCodeMap
      ensures Snapshot() == Process(old(Snapshot()), f, extract)
    {
      var data := ReadRest(f);
      ghost var goal := Tally(Tables(routeMap, returnCodeMap), data, extract);
      for i := 0 to |data|
        invariant offsetRecord == old(offsetRecord)
        invariant Tally(Tables(routeMap, returnCodeMap), data[i..], extract) == goal
      {
        assert data[i..][1..] == data[i + 1..];
        CountLine(data[i], extract);
      }
      assert data[|data|..] == [];
      SetOffset(Some(Handle(f.content, EndPosition(f))), false);
    }

    /** One run of the script: `f = get_log()` then `process_log(f)`. */
    method RunOnce(nctime: int, content: string, extract: Extractor) returns (r: Outcome)
      modifies this
      ensures (Snapshot(), r) == Run(old(Snapshot()), nctime, content, extract)
    {
      var handle := GetLog(nctime, content);
      if handle.Failure? {
        return Fail(handle.error);
      }
      ProcessLog(handle.value, extract);
      r := Pass;
    }
  }
}
