/**
 * The counting done by `process_log`: each line the extractor matches adds
 * one to the count of its stripped route and one to the count of its
 * status code (Python's `None` when the code is in no class).
 */
module Aggregate {
  import opened Wrappers
  import opened Counts
  import PyText
  import Status

  /** The route and the status code the line pattern captures from a matching line. */
  datatype Extracted = Extracted(rawRoute: string, status: int)

  /** The line pattern, as a function from a line to its captures, `None` when the line does not match. */
  type Extractor = string -> Option<Extracted>

  /** `route_map` and `return_code_map`. */
  datatype Tables = Tables(routes: map<string, int>, codes: map<Option<string>, int>)

  /** The tables after one line of the loop in `process_log`. */
  function TallyLine(t: Tables, line: string, extract: Extractor): Tables
  {
    match extract(line)
    case None => t
    case Some(e) => Tables(Bump(t.routes, PyText.Strip(e.rawRoute)), Bump(t.codes, Status.StatusClass(e.status)))
  }

  /** The tables after the loop in `process_log` has gone through `lines` in order. */
  function Tally(t: Tables, lines: seq<string>, extract: Extractor): Tables
    decreases |lines|
  {
    if lines == [] then t else Tally(TallyLine(t, lines[0], extract), lines[1..], extract)
  }

  /** How many of `lines` match. */
  function Matches(lines: seq<string>, extract: Extractor): nat
  {
    if lines == [] then 0
    else (if extract(lines[0]).Some? then 1 else 0) + Matches(lines[1..], extract)
  }

  /** How many of `lines` match with route `route` once stripped. */
  function RouteHits(route: string, lines: seq<string>, extract: Extractor): nat
  {
    if lines == [] then 0
    else
      var e := extract(lines[0]);
      (if e.Some? && PyText.Strip(e.value.rawRoute) == route then 1 else 0) + RouteHits(route, lines[1..], extract)
  }

  /** How many of `lines` match whose status code falls in class `code` (`None`: in no class). */
  function ClassHits(code: Option<string>, lines: seq<string>, extract: Extractor): nat
  {
    if lines == [] then 0
    else
      var e := extract(lines[0]);
      (if e.Some? && Status.StatusClass(e.value.status) == code then 1 else 0) + ClassHits(code, lines[1..], extract)
  }

  /**
   * Every route count after the loop is the count before it plus the number
   * of matching lines with that route; a route has an entry afterwards
   * exactly when it had one before or some matching line carries it.
   */
  lemma {:induction false} TallyRouteCounts(t: Tables, lines: seq<string>, extract: Extractor, route: string)
    ensures Get(Tally(t, lines, extract).routes, route) == Get(t.routes, route) + RouteHits(route, lines, extract)
    ensures route in Tally(t, lines, extract).routes <==> route in t.routes || RouteHits(route, lines, extract) > 0
    decreases |lines|
  {
    if lines != [] {
      TallyRouteCounts(TallyLine(t, lines[0], extract), lines[1..], extract, route);
    }
  }

  /**
   * Every status-class count after the loop (the `None` key included) is the
   * count before it plus the number of matching lines of that class; a class
   * has an entry afterwards exactly when it had one before or some matching
   * line falls in it.
   */
  lemma {:induction false} TallyClassCounts(t: Tables, lines: seq<string>, extract: Extractor, code: Option<string>)
    ensures Get(Tally(t, lines, extract).codes, code) == Get(t.codes, code) + ClassHits(code, lines, extract)
    ensures code in Tally(t, lines, extract).codes <==> code in t.codes || ClassHits(code, lines, extract) > 0
    decreases |lines|
  {
    if lines != [] {
      TallyClassCounts(TallyLine(t, lines[0], extract), lines[1..], extract, code);
    }
  }

  /** Each table's total grows by exactly the number of matching lines. */
  lemma {:induction false} TallyTotals(t: Tables, lines: seq<string>, extract: Extractor)
    ensures Total(Tally(t, lines, extract).routes) == Total(t.routes) + Matches(lines, extract)
    ensures Total(Tally(t, lines, extract).codes) == Total(t.codes) + Matches(lines, extract)
    decreases |lines|
  {
    if lines != [] {
      var e := extract(lines[0]);
      if e.Some? {
        TotalBump(t.routes, PyText.Strip(e.value.rawRoute));
        TotalBump(t.codes, Status.StatusClass(e.value.status));
      }
      TallyTotals(TallyLine(t, lines[0], extract), lines[1..], extract);
    }
  }

  /**
   * A matching line whose status code is in no class is counted under the
   * `None` key, beside its route.
   */
  lemma OutOfRangeCountsUnderNone(t: Tables, line: string, extract: Extractor)
    requires extract(line).Some?
    requires !(200 <= extract(line).value.status < 600)
    ensures Get(TallyLine(t, line, extract).codes, None) == Get(t.codes, None) + 1
    ensures forall c :: c in t.codes && c != None ==>
              c in TallyLine(t, line, extract).codes && TallyLine(t, line, extract).codes[c] == t.codes[c]
  {
  }
}
