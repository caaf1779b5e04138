/**
  * The daily monitor (trends_monitor.py): the keyword list is swept in
  * batches; every keyword with a result is kept and its rising queries
  * above a threshold become alerts; at the end a flat report is built
  * from the kept results and summary and alert bodies are written. The
  * scheduler picks a start time a random number of minutes past a fixed
  * hour.
  *
  * Each batch's fetched results, the outcome of saving a keyword's file
  * and the random draws are parameters.
  */
module TrendsMonitor {
  import opened Wrappers
  import opened Text
  import opened Records

  // ---------------------------------------------------------------------
  // check_rising_trends
  // ---------------------------------------------------------------------

  /** The rows whose value is strictly above `threshold`, in their order. */
  function Above(rows: seq<Row>, threshold: int): (r: seq<Row>)
    ensures |r| <= |rows|
  {
    if rows == [] then []
    else
      var init := Above(rows[..|rows| - 1], threshold);
      if rows[|rows| - 1].value > threshold then init + [rows[|rows| - 1]] else init
  }

  /** A row survives the filter exactly when it is one of the rows and its
      value exceeds the threshold. */
  lemma {:induction false} AboveMembers(rows: seq<Row>, threshold: int)
    ensures forall x :: x in Above(rows, threshold) <==> x in rows && x.value > threshold
  {
    if rows != [] {
      AboveMembers(rows[..|rows| - 1], threshold);
      assert rows == rows[..|rows| - 1] + [rows[|rows| - 1]];
    }
  }

  /** Filtering two stretches of rows one after the other gives the filter
      of the whole: the survivors keep the order of the rows. */
  lemma {:induction false} AboveAppend(a: seq<Row>, b: seq<Row>, threshold: int)
    ensures Above(a + b, threshold) == Above(a, threshold) + Above(b, threshold)
  {
    if b != [] {
      AboveAppend(a, b[..|b| - 1], threshold);
      assert (a + b)[..|a + b| - 1] == a + b[..|b| - 1];
    } else {
      assert a + b == a;
    }
  }

  /** Filtering again with a threshold at least as high is the same as
      filtering once with it. */
  lemma {:induction false} AboveAbove(rows: seq<Row>, t1: int, t2: int)
    requires t1 <= t2
    ensures Above(Above(rows, t1), t2) == Above(rows, t2)
  {
    if rows != [] {
      var init := rows[..|rows| - 1];
      var x := rows[|rows| - 1];
      AboveAbove(init, t1, t2);
      if x.value > t1 {
        AboveAppend(Above(init, t1), [x], t2);
      }
    }
  }

  /** The rising table of a result, when the result has one. */
  function RisingRows(data: Option<Related>): seq<Row> {
    if data.Some? && data.value.rising.Frame? then data.value.rising.rows else []
  }

  /** `check_rising_trends`: the `(query, value)` pairs of the rising table
      whose value is strictly above `threshold`, in row order; nothing for
      a falsy result, a missing or `None` rising entry, or a rising entry
      that is not a table. */
  method CheckRisingTrends(data: Option<Related>, threshold: int) returns (trends: seq<Row>)
    ensures trends == Above(RisingRows(data), threshold)
    ensures !Truthy(data) ==> trends == []
  {
    if !Truthy(data) || data.value.rising.Absent? || data.value.rising.Null? {
      return [];
    }
    trends := [];
    if data.value.rising.Frame? {
      var rows := data.value.rising.rows;
      for i := 0 to |rows|
        invariant trends == Above(rows[..i], threshold)
      {
        assert rows[..i + 1][..i] == rows[..i];
        if rows[i].value > threshold {
          trends := trends + [rows[i]];
        }
      }
      assert rows[..|rows|] == rows;
    }
  }

  // ---------------------------------------------------------------------
  // generate_daily_report
  // ---------------------------------------------------------------------

  /** The report rows of one table of one keyword, in row order. */
  function Tagged(keyword: string, rows: seq<Row>, kind: Kind): (r: seq<ReportRow>)
    ensures |r| == |rows|
    ensures forall i :: 0 <= i < |rows| ==> r[i] == ReportRow(keyword, rows[i].query, rows[i].value, kind)
  {
    seq(|rows|, i requires 0 <= i < |rows| => ReportRow(keyword, rows[i].query, rows[i].value, kind))
  }

  /** The table of the given kind in a result, when there is one. */
  function TableOf(data: Option<Related>, kind: Kind): seq<Row> {
    if data.None? then []
    else
      var f := if kind == Rising then data.value.rising else data.value.top;
      FrameRows(f)
  }

  /** What one keyword adds to the report: its rising rows, then its top
      rows. */
  function KeywordRows(keyword: string, data: Option<Related>): seq<ReportRow> {
    Tagged(keyword, TableOf(data, Rising), Rising) + Tagged(keyword, TableOf(data, Top), Top)
  }

  /** The report rows for the keywords `keys`, in that order. */
  function ReportRows(keys: seq<string>, results: Dict<Related>): seq<ReportRow> {
    if keys == [] then []
    else ReportRows(keys[..|keys| - 1], results) + KeywordRows(keys[|keys| - 1], results.Get(keys[|keys| - 1]))
  }

  /** How many table rows the results for `keys` hold. */
  function TableRowCount(keys: seq<string>, results: Dict<Related>): nat {
    if keys == [] then 0
    else
      var data := results.Get(keys[|keys| - 1]);
      TableRowCount(keys[..|keys| - 1], results) + |TableOf(data, Rising)| + |TableOf(data, Top)|
  }

  /** The report has one row per table row. */
  lemma {:induction false} ReportRowCount(keys: seq<string>, results: Dict<Related>)
    ensures |ReportRows(keys, results)| == TableRowCount(keys, results)
  {
    if keys != [] {
      ReportRowCount(keys[..|keys| - 1], results);
    }
  }

  /** The report is empty exactly when none of the keywords has a table row. */
  lemma {:induction false} ReportEmpty(keys: seq<string>, results: Dict<Related>)
    ensures ReportRows(keys, results) == [] <==>
      forall i :: 0 <= i < |keys| ==>
        TableOf(results.Get(keys[i]), Rising) == [] && TableOf(results.Get(keys[i]), Top) == []
  {
    if keys != [] {
      var init := keys[..|keys| - 1];
      ReportEmpty(init, results);
      assert forall i :: 0 <= i < |init| ==> keys[i] == init[i];
    }
  }

  lemma {:induction false} SelectTagged(keyword: string, rows: seq<Row>, kind': Kind, k: string, kind: Kind)
    ensures Select(Tagged(keyword, rows, kind'), k, kind) ==
      if keyword == k && kind' == kind then Tagged(keyword, rows, kind') else []
  {
    if rows != [] {
      var init := rows[..|rows| - 1];
      SelectTagged(keyword, init, kind', k, kind);
      assert Tagged(keyword, rows, kind')[..|rows| - 1] == Tagged(keyword, init, kind');
      assert Tagged(keyword, rows, kind') == Tagged(keyword, init, kind') + [Tagged(keyword, rows, kind')[|rows| - 1]];
    }
  }

  /** The rows of one keyword hold one block per kind: its own table of
      that kind, and nothing for any other keyword. */
  lemma SelectKeywordRows(last: string, data: Option<Related>, k: string, kind: Kind)
    ensures Select(KeywordRows(last, data), k, kind) ==
      if k == last then Tagged(last, TableOf(data, kind), kind) else []
  {
    SelectAppend(Tagged(last, TableOf(data, Rising), Rising), Tagged(last, TableOf(data, Top), Top), k, kind);
    SelectTagged(last, TableOf(data, Rising), Rising, k, kind);
    SelectTagged(last, TableOf(data, Top), Top, k, kind);
  }

  /** A keyword of a list without repeats is either its last one, absent
      from the others, or one of the others. */
  lemma DistinctLast(keys: seq<string>, k: string)
    requires Distinct(keys) && k in keys
    ensures var init := keys[..|keys| - 1];
      Distinct(init) && (if k == keys[|keys| - 1] then k !in init else k in init)
  {
    var init := keys[..|keys| - 1];
    assert forall i :: 0 <= i < |init| ==> init[i] == keys[i];
    var i :| 0 <= i < |keys| && keys[i] == k;
    if k != keys[|keys| - 1] {
      assert i < |init| && init[i] == k;
    }
  }

  /** Each block of the report is one table of one keyword, in row order:
      picking out the rows of keyword `k` and one type gives exactly that
      table of `k`'s result, tagged; rising rows and top rows never mix. */
  lemma {:induction false} ReportBlock(keys: seq<string>, results: Dict<Related>, k: string, kind: Kind)
    requires Distinct(keys) && k in keys
    ensures Select(ReportRows(keys, results), k, kind) == Tagged(k, TableOf(results.Get(k), kind), kind)
  {
    var init := keys[..|keys| - 1];
    var last := keys[|keys| - 1];
    SelectAppend(ReportRows(init, results), KeywordRows(last, results.Get(last)), k, kind);
    SelectKeywordRows(last, results.Get(last), k, kind);
    DistinctLast(keys, k);
    if k == last {
      ReportAbsent(init, results, k, kind);
    } else {
      ReportBlock(init, results, k, kind);
    }
  }

  /** A keyword outside `keys` has no rows in their report. */
  lemma {:induction false} ReportAbsent(keys: seq<string>, results: Dict<Related>, k: string, kind: Kind)
    requires k !in keys
    ensures Select(ReportRows(keys, results), k, kind) == []
  {
    if keys != [] {
      var init := keys[..|keys| - 1];
      var last := keys[|keys| - 1];
      var data := results.Get(last);
      ReportAbsent(init, results, k, kind);
      SelectAppend(ReportRows(init, results), KeywordRows(last, data), k, kind);
      SelectAppend(Tagged(last, TableOf(data, Rising), Rising), Tagged(last, TableOf(data, Top), Top), k, kind);
      SelectTagged(last, TableOf(data, Rising), Rising, k, kind);
      SelectTagged(last, TableOf(data, Top), Top, k, kind);
    }
  }

  /** The first `i + 1` keywords' rows are the first `i` keywords' rows
      followed by keyword `i`'s. */
  lemma ReportStep(keys: seq<string>, i: nat, results: Dict<Related>)
    requires i < |keys|
    ensures ReportRows(keys[..i + 1], results) ==
      ReportRows(keys[..i], results) + KeywordRows(keys[i], results.Get(keys[i]))
  {
    assert keys[..i + 1][..i] == keys[..i];
  }

  /** One table of one result in `generate_daily_report`: when the
      result holds a table of that kind, append one report row per table
      row, tagged with the keyword and the type (the `iterrows` loop). */
  method AppendTable(reportData: seq<ReportRow>, keyword: string, data: Option<Related>, kind: Kind)
    returns (r: seq<ReportRow>)
    ensures r == reportData + Tagged(keyword, TableOf(data, kind), kind)
  {
    r := reportData;
    if data.Some? {
      var f := if kind == Rising then data.value.rising else data.value.top;
      if f.Frame? {
        var rows := f.rows;
        for j := 0 to |rows|
          invariant r == reportData + Tagged(keyword, rows[..j], kind)
        {
          r := r + [ReportRow(keyword, rows[j].query, rows[j].value, kind)];
        }
        assert rows[..|rows|] == rows;
      }
    }
  }

  /** `generate_daily_report`: walk the results in iteration order and,
      for each keyword whose result has a rising table, emit its rows typed
      `rising`, then the rows of its top table typed `top`. The report is
      returned when it has a row, and `None` (no file written) otherwise. */
  method GenerateDailyReport(results: Dict<Related>) returns (report: Option<seq<ReportRow>>)
    ensures report.None? <==> ReportRows(results.keys, results) == []
    ensures report.Some? ==> report.value == ReportRows(results.keys, results)
  {
    var keys := results.keys;
    var reportData: seq<ReportRow> := [];
    for i := 0 to |keys|
      invariant reportData == ReportRows(keys[..i], results)
    {
      ReportStep(keys, i, results);
      reportData := AppendTable(reportData, keys[i], results.Get(keys[i]), Rising);
      reportData := AppendTable(reportData, keys[i], results.Get(keys[i]), Top);
    }
    assert keys[..|keys|] == keys;
    if reportData != [] {
      report := Some(reportData);
    } else {
      report := None;
    }
  }

  // ---------------------------------------------------------------------
  // Batches of the keyword list
  // ---------------------------------------------------------------------

  /** `KEYWORDS[i:i + size]` for `i` = 0, `size`, 2·`size`, … below the
      length of the list. */
  function Batches(ks: seq<string>, size: nat): seq<seq<string>>
    requires size > 0
    decreases |ks|
  {
    if ks == [] then []
    else if |ks| <= size then [ks]
    else [ks[..size]] + Batches(ks[size..], size)
  }

  function Flatten(bs: seq<seq<string>>): seq<string> {
    if bs == [] then [] else bs[0] + Flatten(bs[1..])
  }

  /** The batches, put back together, are the keyword list. */
  lemma {:induction false} BatchesCover(ks: seq<string>, size: nat)
    requires size > 0
    ensures Flatten(Batches(ks, size)) == ks
    decreases |ks|
  {
    if |ks| > size {
      BatchesCover(ks[size..], size);
      assert ks == ks[..size] + ks[size..];
    } else if ks != [] {
      assert Flatten([ks]) == ks + Flatten([]);
    }
  }

  /** Every batch holds at least one and at most `size` keywords, and
      there are as many batches as it takes to hold the list `size` at a
      time: one fewer would hold too few keywords. */
  lemma {:induction false} BatchesSized(ks: seq<string>, size: nat)
    requires size > 0
    ensures forall b :: 0 <= b < |Batches(ks, size)| ==> 1 <= |Batches(ks, size)[b]| <= size
    ensures (|Batches(ks, size)| - 1) * size < |ks| <= |Batches(ks, size)| * size
    decreases |ks|
  {
    if |ks| > size {
      BatchesSized(ks[size..], size);
      var rest := Batches(ks[size..], size);
      assert forall b :: 1 <= b < |Batches(ks, size)| ==> Batches(ks, size)[b] == rest[b - 1];
      assert |Batches(ks, size)| * size == |rest| * size + size;
    }
  }

  // ---------------------------------------------------------------------
  // process_keywords_batch
  // ---------------------------------------------------------------------

  /** The two accumulators the caller owns: `all_results` and
      `high_rising_trends`. */
  datatype Collected = Collected(results: Dict<Related>, alerts: seq<Alert>)

  /** `[(keyword, q, v) for q, v in trends]`. */
  function AlertsFor(keyword: string, trends: seq<Row>): (r: seq<Alert>)
    ensures |r| == |trends|
    ensures forall i :: 0 <= i < |trends| ==> r[i] == Alert(keyword, trends[i].query, trends[i].value)
  {
    seq(|trends|, i requires 0 <= i < |trends| => Alert(keyword, trends[i].query, trends[i].value))
  }

  /** The result stored in a batch's results for `k` (`None` when absent). */
  function Fetched(fetched: Dict<Option<Related>>, k: string): Option<Related> {
    if k in fetched.values then fetched.values[k] else None
  }

  /** Keeping one result: its alerts go at the end of the alert list and it
      is stored under its keyword. */
  function Keep(c: Collected, keyword: string, data: Related, threshold: int): (r: Collected)
    requires c.results.Valid()
    ensures r.results.Valid()
  {
    Collected(Assign(c.results, keyword, data),
              c.alerts + AlertsFor(keyword, Above(RisingRows(Some(data)), threshold)))
  }

  /** The accumulators after the first `n` entries of a batch's results:
      each truthy result is kept, the others are skipped. */
  function Gathered(c: Collected, fetched: Dict<Option<Related>>, n: nat, threshold: int): (r: Collected)
    requires c.results.Valid() && n <= |fetched.keys|
    ensures r.results.Valid()
  {
    if n == 0 then c
    else
      var prev := Gathered(c, fetched, n - 1, threshold);
      var k := fetched.keys[n - 1];
      if Truthy(Fetched(fetched, k)) then Keep(prev, k, Fetched(fetched, k).value, threshold) else prev
  }

  /** Entry `i` of a batch's results is truthy but saving its file raises. */
  predicate Fails(fetched: Dict<Option<Related>>, saved: string -> bool, i: nat)
    requires i < |fetched.keys|
  {
    Truthy(Fetched(fetched, fetched.keys[i])) && !saved(fetched.keys[i])
  }

  /** The index of the first entry, from `from` on, whose saving raises;
      the number of entries when none does. */
  function FirstFailure(fetched: Dict<Option<Related>>, saved: string -> bool, from: nat): (n: nat)
    requires from <= |fetched.keys|
    ensures from <= n <= |fetched.keys|
    ensures n < |fetched.keys| ==> Fails(fetched, saved, n)
    ensures forall i :: from <= i < n ==> !Fails(fetched, saved, i)
    decreases |fetched.keys| - from
  {
    if from == |fetched.keys| then from
    else if Fails(fetched, saved, from) then from
    else FirstFailure(fetched, saved, from + 1)
  }

  /** After the first `n` entries, a keyword's stored result is its result
      in the batch when that result is truthy and among those entries, and
      what it was before otherwise: only truthy results are added. */
  lemma {:induction false} GatheredGet(c: Collected, fetched: Dict<Option<Related>>, n: nat, threshold: int, k: string)
    requires c.results.Valid() && fetched.Valid() && n <= |fetched.keys|
    ensures Gathered(c, fetched, n, threshold).results.Get(k) ==
      if k in fetched.keys[..n] && Truthy(Fetched(fetched, k)) then Some(Fetched(fetched, k).value)
      else c.results.Get(k)
  {
    if n > 0 {
      GatheredGet(c, fetched, n - 1, threshold, k);
      var last := fetched.keys[n - 1];
      assert fetched.keys[..n] == fetched.keys[..n - 1] + [last];
      if k == last {
        assert k !in fetched.keys[..n - 1] by {
          forall i | 0 <= i < n - 1 ensures fetched.keys[i] != k {
          }
        }
      }
    }
  }

  /** Earlier additions are kept: the stored keywords and the alerts of
      before come first, unchanged; every new alert belongs to a keyword
      among the entries processed and is above the threshold. */
  lemma {:induction false} GatheredExtends(c: Collected, fetched: Dict<Option<Related>>, n: nat, threshold: int)
    requires c.results.Valid() && n <= |fetched.keys|
    ensures var r := Gathered(c, fetched, n, threshold);
      |c.results.keys| <= |r.results.keys| && r.results.keys[..|c.results.keys|] == c.results.keys &&
      |c.alerts| <= |r.alerts| && r.alerts[..|c.alerts|] == c.alerts &&
      forall i :: |c.alerts| <= i < |r.alerts| ==>
        r.alerts[i].keyword in fetched.keys[..n] && r.alerts[i].value > threshold
  {
    if n > 0 {
      GatheredExtends(c, fetched, n - 1, threshold);
      var prev := Gathered(c, fetched, n - 1, threshold);
      var k := fetched.keys[n - 1];
      assert fetched.keys[..n] == fetched.keys[..n - 1] + [k];
      if Truthy(Fetched(fetched, k)) {
        var trends := Above(RisingRows(Fetched(fetched, k)), threshold);
        AboveMembers(RisingRows(Fetched(fetched, k)), threshold);
        var r := Keep(prev, k, Fetched(fetched, k).value, threshold);
        assert r.alerts == prev.alerts + AlertsFor(k, trends);
        forall i | |c.alerts| <= i < |r.alerts|
          ensures r.alerts[i].keyword in fetched.keys[..n] && r.alerts[i].value > threshold
        {
          if i >= |prev.alerts| {
            assert trends[i - |prev.alerts|] in trends;
          }
        }
      }
    }
  }

  /** The loop of `process_keywords_batch` after `i` entries with no
      failure among them. */
  ghost predicate Swept(c: Collected, fetched: Dict<Option<Related>>, saved: string -> bool,
                        threshold: int, i: nat, now: Collected)
    requires c.results.Valid() && i <= |fetched.keys|
  {
    now == Gathered(c, fetched, i, threshold) &&
    FirstFailure(fetched, saved, 0) == FirstFailure(fetched, saved, i)
  }

  class Collector {
    /** `all_results`: the kept result of each keyword, in insertion order. */
    var allResults: Dict<Related>
    /** `high_rising_trends`: the alerts, in the order they were found. */
    var alerts: seq<Alert>

    ghost predicate Valid()
      reads this
    {
      allResults.Valid()
    }

    function State(): Collected
      reads this
    {
      Collected(allResults, alerts)
    }

    /** The empty accumulators `{}` and `[]` of `process_trends`. */
    constructor ()
      ensures Valid() && allResults == EmptyDict() && alerts == []
    {
      allResults := EmptyDict();
      alerts := [];
    }

    /** `process_keywords_batch` on the results `fetched` of one batch:
        every truthy result is saved (`saved(k)` is false when saving or
        moving its file raises), its rising queries above `threshold`
        become alerts, and it is stored. A raise ends the batch with
        `false`, keeping what was added before it. */
    method ProcessKeywordsBatch(fetched: Dict<Option<Related>>, threshold: int, saved: string -> bool)
      returns (ok: bool)
      requires Valid() && fetched.Valid()
      modifies this
      ensures Valid()
      ensures State() == Gathered(old(State()), fetched, FirstFailure(fetched, saved, 0), threshold)
      ensures ok <==> FirstFailure(fetched, saved, 0) == |fetched.keys|
    {
      ghost var start := State();
      var keys := fetched.keys;
      for i := 0 to |keys|
        invariant Valid() && Swept(start, fetched, saved, threshold, i, State())
      {
        var keyword := keys[i];
        var data := fetched.values[keyword];
        if Truthy(data) {
          if !saved(keyword) {
            return false;
          }
          var trends := CheckRisingTrends(data, threshold);
          if trends != [] {
            alerts := alerts + AlertsFor(keyword, trends);
          }
          allResults := Assign(allResults, keyword, data.value);
        }
      }
      return true;
    }
  }

  // ---------------------------------------------------------------------
  // process_trends
  // ---------------------------------------------------------------------

  /** The accumulators after the first `n` batches: batch `b` is processed
      on its fetched results `fetched(b)`, and `saved(b)` says which of its
      files could be saved. */
  function SweepState(fetched: nat -> Dict<Option<Related>>, saved: nat -> string -> bool,
                      threshold: int, n: nat): (r: Collected)
    ensures r.results.Valid()
  {
    if n == 0 then Collected(EmptyDict(), [])
    else
      var prev := SweepState(fetched, saved, threshold, n - 1);
      Gathered(prev, fetched(n - 1), FirstFailure(fetched(n - 1), saved(n - 1), 0), threshold)
  }

  /** Batch `b` went through without a raise. */
  predicate BatchOk(fetched: nat -> Dict<Option<Related>>, saved: nat -> string -> bool, b: nat) {
    FirstFailure(fetched(b), saved(b), 0) == |fetched(b).keys|
  }

  /** The sleep after batch `b` of `total`: `interval` plus a draw
      `spread(b)` from [0, 60] after a batch that went through and is not
      the last; none after a failed batch or the last one. */
  function WaitAfter(fetched: nat -> Dict<Option<Related>>, saved: nat -> string -> bool, b: nat,
                     total: nat, interval: int, spread: nat -> int): int {
    if BatchOk(fetched, saved, b) && b + 1 < total then interval + spread(b) else 0
  }

  /** A notification `process_trends` sends: subject and HTML body, and
      whether the daily report file is attached. */
  datatype Notice = Notice(subject: string, body: string, withReport: bool)

  /** The indentation of the lines of the triple-quoted bodies. */
  const Indent: string := "            "

  /** `TRENDS_CONFIG['geo'] or 'Global'`. */
  function RegionLabel(geo: string): string {
    if geo == "" then "Global" else geo
  }

  /** The body of the daily report mail, with its three counts. */
  function ReportBody(timeframe: string, geo: string, total: int, successful: int): string {
    "\n" + Indent + "<h2>Daily Trends Report</h2>\n" +
    Indent + "<p>Please find attached the daily trends report.</p>\n" +
    Indent + "<p>Query Parameters:</p>\n" +
    Indent + "<ul>\n" +
    Indent + "<li>Time Range: " + timeframe + "</li>\n" +
    Indent + "<li>Region: " + RegionLabel(geo) + "</li>\n" +
    Indent + "</ul>\n" +
    Indent + "<p>Summary:</p>\n" +
    Indent + "<ul>\n" +
    Indent + "<li>Total keywords processed: " + IntToString(total) + "</li>\n" +
    Indent + "<li>Successful queries: " + IntToString(successful) + "</li>\n" +
    Indent + "<li>Failed queries: " + IntToString(total - successful) + "</li>\n" +
    Indent + "</ul>\n" + Indent
  }

  /** One item of the alert list. */
  function AlertItem(a: Alert): string {
    "<li>" + a.keyword + ": " + a.query + " (Growth: " + IntToString(a.value) + ")</li>"
  }

  /** The texts `item(x)` of the elements of `xs`, appended one after
      the other with nothing between them. */
  function Items<T>(xs: seq<T>, item: T -> string): string {
    if xs == [] then "" else Items(xs[..|xs| - 1], item) + item(xs[|xs| - 1])
  }

  /** The alert items of `alerts`, in order. */
  function AlertItems(alerts: seq<Alert>): string {
    Items(alerts, AlertItem)
  }

  /** The body of the alert mail. */
  function AlertBody(timeframe: string, geo: string, alerts: seq<Alert>): string {
    "\n" + Indent + "<h2>High Rising Trends Alert</h2>\n" +
    Indent + "<p>Query Parameters:</p>\n" +
    Indent + "<ul>\n" +
    Indent + "<li>Time Range: " + timeframe + "</li>\n" +
    Indent + "<li>Region: " + RegionLabel(geo) + "</li>\n" +
    Indent + "</ul>\n" +
    Indent + "<p>The following trends have shown significant growth:</p>\n" +
    Indent + "<ul>\n" + Indent +
    AlertItems(alerts) + "</ul>"
  }

  /** Concatenating the items of two lists gives the items of the joined
      list: each element contributes its own item, in order. */
  lemma {:induction false} ItemsAppend<T>(a: seq<T>, b: seq<T>, item: T -> string)
    ensures Items(a + b, item) == Items(a, item) + Items(b, item)
  {
    if b == [] {
      assert a + b == a;
    } else {
      ItemsAppend(a, b[..|b| - 1], item);
      assert (a + b)[..|a + b| - 1] == a + b[..|b| - 1];
    }
  }

  /** A list of items holds a character only when one of the items does. */
  lemma {:induction false} ItemsWithout<T>(xs: seq<T>, item: T -> string, c: char)
    requires forall i :: 0 <= i < |xs| ==> c !in item(xs[i])
    ensures c !in Items(xs, item)
  {
    if xs != [] {
      ItemsWithout(xs[..|xs| - 1], item, c);
    }
  }

  /** An alert item has a line break only when its keyword or query does. */
  lemma AlertItemOneLine(a: Alert)
    requires '\n' !in a.keyword && '\n' !in a.query
    ensures '\n' !in AlertItem(a)
  {
    var digits := IntToString(a.value);
    assert forall k :: 0 <= k < |digits| ==> digits[k] != '\n';
  }

  /** No line break separates the items: when no keyword or query holds
      one, the whole alert list is a single line of text. */
  lemma AlertItemsOneLine(alerts: seq<Alert>)
    requires forall i :: 0 <= i < |alerts| ==> '\n' !in alerts[i].keyword && '\n' !in alerts[i].query
    ensures '\n' !in AlertItems(alerts)
  {
    forall i | 0 <= i < |alerts| ensures '\n' !in AlertItem(alerts[i]) {
      AlertItemOneLine(alerts[i]);
    }
    ItemsWithout(alerts, AlertItem, '\n');
  }

  /** The message `str(e)` carries when `range()` is given a step of zero. */
  const ZeroStepMessage: string := "range() arg 3 must not be zero"

  /** The notice sent when the run raises with the message `message`. */
  function ErrorNotice(message: string): Notice {
    Notice("\U{274C} Error in Trends Processing",
           "<p>An error occurred during trends processing:</p><pre>" + message + "</pre>", false)
  }

  /** The notices sent after the sweep: the daily report when it has rows,
      then the alert list when there are alerts. */
  function Notices(today: string, timeframe: string, geo: string, total: nat, c: Collected,
                   report: Option<seq<ReportRow>>): seq<Notice> {
    (if report.Some?
     then [Notice("Daily Trends Report - " + today, ReportBody(timeframe, geo, total, c.results.Size()), true)]
     else []) +
    (if c.alerts != []
     then [Notice("\U{1F6A8} High Rising Trends Alert", AlertBody(timeframe, geo, c.alerts), false)]
     else [])
  }

  /** The loop of `process_trends` after `b` batches: the batches taken so
      far followed by those of the keywords left are all the batches, the
      accumulators are the sweep's after `b` batches, and the sleeps are
      the sweep's. */
  ghost predicate Progress(keywords: seq<string>, size: nat, rest: seq<string>, batches: seq<seq<string>>,
                           fetched: nat -> Dict<Option<Related>>, saved: nat -> string -> bool,
                           threshold: int, c: Collected, interval: int, spread: nat -> int, waits: seq<int>)
    requires size > 0
  {
    var total := |Batches(keywords, size)|;
    batches + Batches(rest, size) == Batches(keywords, size) &&
    c == SweepState(fetched, saved, threshold, |batches|) &&
    |waits| == |batches| &&
    forall b :: 0 <= b < |waits| ==> waits[b] == WaitAfter(fetched, saved, b, total, interval, spread)
  }

  /** The batch `process_trends` takes next from the keywords `rest` not
      yet taken, and the keywords it leaves. */
  function NextBatch(rest: seq<string>, size: nat): seq<string> {
    if |rest| > size then rest[..size] else rest
  }

  function AfterBatch(rest: seq<string>, size: nat): seq<string> {
    if |rest| > size then rest[size..] else []
  }

  /** Taking one batch keeps the batches taken followed by those of the
      keywords left equal to all the batches; it is the last exactly when
      it takes every keyword left. */
  lemma BatchesStep(keywords: seq<string>, size: nat, rest: seq<string>, batches: seq<seq<string>>)
    requires size > 0 && rest != []
    requires batches + Batches(rest, size) == Batches(keywords, size)
    ensures (batches + [NextBatch(rest, size)]) + Batches(AfterBatch(rest, size), size) == Batches(keywords, size)
    ensures |rest| > size <==> |batches| + 1 < |Batches(keywords, size)|
  {
    var batch, next := NextBatch(rest, size), AfterBatch(rest, size);
    assert Batches(rest, size) == [batch] + Batches(next, size);
    AppendAssoc3(batches, [batch], Batches(next, size));
    assert |rest| > size <==> |Batches(next, size)| > 0;
  }

  /** The sleep after one batch more extends the sleeps so far. */
  lemma WaitsStep(fetched: nat -> Dict<Option<Related>>, saved: nat -> string -> bool, total: nat,
                  interval: int, spread: nat -> int, waits: seq<int>, wait: int)
    requires forall b :: 0 <= b < |waits| ==> waits[b] == WaitAfter(fetched, saved, b, total, interval, spread)
    requires wait == WaitAfter(fetched, saved, |waits|, total, interval, spread)
    ensures forall b :: 0 <= b < |waits + [wait]| ==> (waits + [wait])[b] == WaitAfter(fetched, saved, b, total, interval, spread)
  {
  }

  /** One batch more. */
  lemma ProgressStep(keywords: seq<string>, size: nat, rest: seq<string>, batches: seq<seq<string>>,
                     fetched: nat -> Dict<Option<Related>>, saved: nat -> string -> bool,
                     threshold: int, c: Collected, interval: int, spread: nat -> int, waits: seq<int>,
                     wait: int, c': Collected)
    requires size > 0 && rest != []
    requires Progress(keywords, size, rest, batches, fetched, saved, threshold, c, interval, spread, waits)
    requires var b := |batches|;
      c' == Gathered(c, fetched(b), FirstFailure(fetched(b), saved(b), 0), threshold) &&
      wait == (if BatchOk(fetched, saved, b) && |rest| > size then interval + spread(b) else 0)
    ensures Progress(keywords, size, AfterBatch(rest, size), batches + [NextBatch(rest, size)],
                     fetched, saved, threshold, c', interval, spread, waits + [wait])
  {
    BatchesStep(keywords, size, rest, batches);
    WaitsStep(fetched, saved, |Batches(keywords, size)|, interval, spread, waits, wait);
  }

  /** The batch loop of `process_trends` for a positive batch size: take
      `keywords[i:i + size]` for `i` = 0, `size`, …; process each on its
      fetched results; after a batch that went through and is not the
      last, sleep `interval` plus a draw `spread(b)` from [0, 60].
      `batches` are the batches taken, `waits` the sleeps after each. */
  method SweepBatches(c: Collector, keywords: seq<string>, size: nat, threshold: int,
                      fetched: nat -> Dict<Option<Related>>, saved: nat -> string -> bool,
                      interval: int, spread: nat -> int)
    returns (ghost batches: seq<seq<string>>, ghost waits: seq<int>)
    requires size > 0 && c.Valid() && c.State() == Collected(EmptyDict(), [])
    requires forall b :: fetched(b).Valid()
    requires forall b :: 0 <= spread(b) <= 60
    modifies c
    ensures c.Valid() && Progress(keywords, size, [], batches, fetched, saved, threshold, c.State(), interval, spread, waits)
  {
    batches, waits := [], [];
    var i, b := 0, 0;
    ghost var rest := keywords;
    while i < |keywords|
      invariant 0 <= i && rest == (if i < |keywords| then keywords[i..] else []) && b == |batches|
      invariant c.Valid() && Progress(keywords, size, rest, batches, fetched, saved, threshold, c.State(), interval, spread, waits)
      decreases |keywords| - i
    {
      ghost var before := c.State();
      var success := c.ProcessKeywordsBatch(fetched(b), threshold, saved(b));
      var wait := 0;
      if success && i + size < |keywords| {
        wait := interval + spread(b);
      }
      ProgressStep(keywords, size, rest, batches, fetched, saved, threshold, before, interval, spread, waits, wait, c.State());
      batches := batches + [NextBatch(rest, size)];
      rest := AfterBatch(rest, size);
      waits := waits + [wait];
      i, b := i + size, b + 1;
    }
  }

  /** Once no keyword is left, the batches taken are all the batches. */
  lemma ProgressDone(keywords: seq<string>, size: nat, batches: seq<seq<string>>,
                     fetched: nat -> Dict<Option<Related>>, saved: nat -> string -> bool,
                     threshold: int, c: Collected, interval: int, spread: nat -> int, waits: seq<int>)
    requires size > 0
    requires Progress(keywords, size, [], batches, fetched, saved, threshold, c, interval, spread, waits)
    ensures batches == Batches(keywords, size)
    ensures c == SweepState(fetched, saved, threshold, |batches|) && |waits| == |batches|
    ensures forall b :: 0 <= b < |waits| ==> waits[b] == WaitAfter(fetched, saved, b, |batches|, interval, spread)
  {
    assert batches + [] == batches;
  }

  /** `process_trends`: sweep the keyword list in batches of `batchSize`
      (a step of zero makes `range()` raise, which ends the run with the
      error notice; a negative step gives no batches), then build the
      report from the kept results and send the report and alert notices.
      `batches` are the batches taken, `waits` the sleeps after each. */
  method ProcessTrends(keywords: seq<string>, batchSize: int, threshold: int,
                       fetched: nat -> Dict<Option<Related>>, saved: nat -> string -> bool,
                       interval: int, spread: nat -> int, today: string, timeframe: string, geo: string)
    returns (ok: bool, collected: Collected, report: Option<seq<ReportRow>>, notices: seq<Notice>,
             ghost batches: seq<seq<string>>, ghost waits: seq<int>)
    requires forall b :: fetched(b).Valid()
    requires forall b :: 0 <= spread(b) <= 60
    ensures ok <==> batchSize != 0
    ensures !ok ==> notices == [ErrorNotice(ZeroStepMessage)]
    ensures batchSize > 0 ==> batches == Batches(keywords, batchSize)
    ensures batchSize <= 0 ==> batches == []
    ensures collected == SweepState(fetched, saved, threshold, |batches|)
    ensures |waits| == |batches|
    ensures forall b :: 0 <= b < |waits| ==>
      waits[b] == WaitAfter(fetched, saved, b, |batches|, interval, spread)
    ensures ok ==> report == (if ReportRows(collected.results.keys, collected.results) == [] then None
                              else Some(ReportRows(collected.results.keys, collected.results)))
    ensures ok ==> notices == Notices(today, timeframe, geo, |keywords|, collected, report)
  {
    var c := new Collector();
    batches, waits := [], [];
    if batchSize == 0 {
      ok := false;
      collected := c.State();
      report := None;
      notices := [ErrorNotice(ZeroStepMessage)];
      return;
    }
    if batchSize > 0 {
      batches, waits := SweepBatches(c, keywords, batchSize, threshold, fetched, saved, interval, spread);
      ProgressDone(keywords, batchSize, batches, fetched, saved, threshold, c.State(), interval, spread, waits);
    }
    collected := c.State();
    report := GenerateDailyReport(collected.results);
    notices := Notices(today, timeframe, geo, |keywords|, collected, report);
    ok := true;
  }

  // ---------------------------------------------------------------------
  // run_scheduler: the daily start time and the start-up check
  // ---------------------------------------------------------------------

  /** The `"H:MM"` time handed to the scheduler: the configured hour, a
      colon, then the drawn minute offset zero-padded to two digits. */
  function ScheduleTime(hour: nat, minutes: nat): string {
    NatToString(hour) + ":" + ZeroPad2(minutes)
  }

  /** The schedule time splits at its one colon into the hour and the
      minutes, each of which reads back to the value it came from. */
  lemma ScheduleTimeParts(hour: nat, minutes: nat)
    ensures var parts := SplitOn(ScheduleTime(hour, minutes), ':');
      |parts| == 2 &&
      (forall k :: 0 <= k < |parts[0]| ==> IsDigit(parts[0][k])) &&
      (forall k :: 0 <= k < |parts[1]| ==> IsDigit(parts[1][k])) &&
      ParseDigits(parts[0]) == hour && ParseDigits(parts[1]) == minutes
  {
    var h, m := NatToString(hour), ZeroPad2(minutes);
    assert ':' !in h by { assert forall k :: 0 <= k < |h| ==> IsDigit(h[k]); }
    assert ':' !in m by { assert forall k :: 0 <= k < |m| ==> IsDigit(m[k]); }
    NoSepSplit(m, ':');
    SplitAfterSep(h, m, ':');
    assert ScheduleTime(hour, minutes) == h + [':'] + m;
    ParseNatToString(hour);
  }

  /** Distinct (hour, minutes) pairs give distinct schedule times. */
  lemma ScheduleTimeInjective(h1: nat, m1: nat, h2: nat, m2: nat)
    requires ScheduleTime(h1, m1) == ScheduleTime(h2, m2)
    ensures h1 == h2 && m1 == m2
  {
    ScheduleTimeParts(h1, m1);
    ScheduleTimeParts(h2, m2);
  }

  /** The start-up check: started within the scheduled hour at or after
      the drawn minute, today's run is taken as missed. */
  predicate WaitsForTomorrow(now: DateTime, hour: nat, minutes: nat) {
    now.hour == hour && now.minute >= minutes
  }

  /** Seconds since midnight of a clock reading. */
  function SecondOfDay(hour: nat, minute: nat, second: nat): nat {
    3600 * hour + 60 * minute + second
  }

  /** The start-up sleep of `run_scheduler`, in seconds: `None` when no
      wait is due, otherwise the distance from `now` to the same second
      of the scheduled minute tomorrow (`now + timedelta(days=1)` with the
      hour and minute replaced). */
  function StartupSleep(now: DateTime, hour: nat, minutes: nat): (r: Option<int>)
    requires now.minute < 60
    ensures r.Some? <==> WaitsForTomorrow(now, hour, minutes)
    ensures r.Some? ==> 0 < r.value <= 86400
    ensures r.Some? ==>
      SecondOfDay(now.hour, now.minute, now.second) + r.value == 86400 + SecondOfDay(hour, minutes, now.second)
  {
    if WaitsForTomorrow(now, hour, minutes) then
      Some(86400 + 3600 * (hour - now.hour) + 60 * (minutes - now.minute))
    else
      None
  }
}
