/**
  * Fetching related queries for a list of keywords (querytrends.py): each
  * fetch attempt first passes the request limiter, then waits a random
  * second or three, then calls the trend provider; at most five attempts
  * are made per keyword; the batch sweep records one entry per keyword and
  * keeps going after a keyword fails; a successful result can be saved as
  * a JSON record under a time-stamped file name.
  *
  * The trend provider is an oracle `fetch(call, attempt)`: `Some(data)`
  * when attempt `attempt` of call number `call` returns `data`, `None` when
  * it raises. Each call is numbered on its own, so asking for the same
  * keyword twice may get two different answers.
  */
module QueryTrends {
  import opened Wrappers
  import opened Text
  import opened Records
  import opened RateLimit

  /** `max_tries` of the retry decorator on `get_related_queries`. */
  const MaxTries: nat := 5

  /** What the retried call number `call` returns: the reply of the first
      attempt, from `from` on, that does not raise; `None` when all of them
      raise. */
  function Outcome(fetch: (nat, nat) -> Option<Related>, call: nat, from: nat): Option<Related>
    decreases MaxTries - from
  {
    if from >= MaxTries then None
    else if fetch(call, from).Some? then fetch(call, from)
    else Outcome(fetch, call, from + 1)
  }

  /** The call fails exactly when every remaining attempt raises, and when
      it succeeds its result is what one of the attempts returned. */
  lemma {:induction false} OutcomeSpec(fetch: (nat, nat) -> Option<Related>, call: nat, from: nat)
    ensures var r := Outcome(fetch, call, from);
      (r.None? <==> forall i :: from <= i < MaxTries ==> fetch(call, i).None?) &&
      (r.Some? ==> exists i :: from <= i < MaxTries && fetch(call, i) == r)
    decreases MaxTries - from
  {
    if from < MaxTries && fetch(call, from).None? {
      OutcomeSpec(fetch, call, from + 1);
      forall i | from <= i < MaxTries && fetch(call, i).Some?
        ensures from + 1 <= i
      {
      }
    }
  }

  /** How many attempts the retried call makes from `from` on: up to and
      including the first that does not raise, and never more than the
      ceiling. */
  function Attempts(fetch: (nat, nat) -> Option<Related>, call: nat, from: nat): (n: nat)
    ensures from < MaxTries ==> 1 <= n <= MaxTries - from
    ensures from >= MaxTries ==> n == 0
    decreases MaxTries - from
  {
    if from >= MaxTries then 0
    else if fetch(call, from).Some? then 1
    else 1 + Attempts(fetch, call, from + 1)
  }

  /** The attempts made are exactly the failed ones plus, when there is
      one, the first success: every attempt before the last one raised, and
      the last one raised only if the call as a whole failed. */
  lemma {:induction false} AttemptsFailBeforeLast(fetch: (nat, nat) -> Option<Related>, call: nat, from: nat)
    requires from < MaxTries
    ensures var n := Attempts(fetch, call, from);
      (forall i :: from <= i < from + n - 1 ==> fetch(call, i).None?) &&
      (Outcome(fetch, call, from).Some? <==> fetch(call, from + n - 1).Some?) &&
      (Outcome(fetch, call, from).Some? ==> Outcome(fetch, call, from) == fetch(call, from + n - 1))
    decreases MaxTries - from
  {
    if fetch(call, from).None? && from + 1 < MaxTries {
      AttemptsFailBeforeLast(fetch, call, from + 1);
    }
  }

  /** One call of `get_related_queries` (call number `call`, attempt
      number `attempt`): wait on the limiter, sleeping `waits(i)` seconds
      (a draw from [5, 10]) whenever its `i`-th check fails, and recording
      the request at `at`, `lag` seconds after the check that passed; sleep
      `jitter` seconds (a draw from [1, 3]); then call the provider at `t`. */
  method GetRelatedQueries(limiter: RequestLimiter, call: nat, attempt: nat, now: int,
                           fetch: (nat, nat) -> Option<Related>, waits: nat -> int, lag: nat, jitter: int)
    returns (reply: Option<Related>, t: int, ghost at: int)
    requires limiter.Valid() && limiter.clock <= now
    requires forall i :: 5 <= waits(i) <= 10
    requires 1 <= jitter <= 3
    modifies limiter
    ensures limiter.Valid() && limiter.clock == at
    ensures now <= at < t && t == at + jitter
    ensures limiter.admitted == old(limiter.admitted) + [at]
    ensures reply == fetch(call, attempt)
    ensures old(WithinBudget(limiter.admitted)) ==> WithinBudget(limiter.admitted)
  {
    var _, recorded, _, _ := limiter.WaitIfNeeded(now, waits, lag);
    at := recorded;
    t := recorded + jitter;
    reply := fetch(call, attempt);
  }

  /** `get_related_queries` under its retry decorator, from attempt
      `attempt` on: attempt `a` uses the draws `waits(a, i)`, `lag(a)` and
      `jitter(a)`; an attempt that raises is followed by a pause of
      `backoff(a)` seconds and the next attempt, unless it was the last
      allowed one. `admits` are the instants the limiter recorded for each
      attempt. */
  method GetRelatedQueriesRetried(limiter: RequestLimiter, call: nat, attempt: nat, now: int,
                                  fetch: (nat, nat) -> Option<Related>,
                                  waits: (nat, nat) -> int, lag: nat -> nat, jitter: nat -> int, backoff: nat -> int)
    returns (r: Option<Related>, t: int, ghost admits: seq<int>)
    requires attempt < MaxTries
    requires limiter.Valid() && limiter.clock <= now
    requires forall a, i :: 5 <= waits(a, i) <= 10
    requires forall a :: 1 <= jitter(a) <= 3
    requires forall a :: 0 <= backoff(a)
    modifies limiter
    ensures limiter.Valid() && limiter.clock <= t && now <= t
    ensures r == Outcome(fetch, call, attempt)
    ensures |admits| == Attempts(fetch, call, attempt)
    ensures limiter.admitted == old(limiter.admitted) + admits
    ensures old(WithinBudget(limiter.admitted)) ==> WithinBudget(limiter.admitted)
    decreases MaxTries - attempt
  {
    var reply, sent, at := GetRelatedQueries(limiter, call, attempt, now, fetch,
      (i: nat) => waits(attempt, i), lag(attempt), jitter(attempt));
    t := sent;
    admits := [at];
    if reply.Some? || attempt + 1 == MaxTries {
      r := reply;
    } else {
      ghost var rest;
      r, t, rest := GetRelatedQueriesRetried(limiter, call, attempt + 1, sent + backoff(attempt),
        fetch, waits, lag, jitter, backoff);
      admits := admits + rest;
    }
  }

  /** The pause `batch_get_queries` takes after keyword `j`: `delay` plus a
      draw `spread(j)` from [0, 2] after a success unless the keyword equals
      the list's last one, and a fixed 10 seconds after a failure. */
  function PauseAfter(keywords: seq<string>, j: nat, ok: bool, delay: int, spread: nat -> int): (p: int)
    requires j < |keywords|
    requires forall i :: 0 <= spread(i) <= 2
    ensures !ok ==> p == 10
    ensures ok && keywords[j] == keywords[|keywords| - 1] ==> p == 0
    ensures ok && keywords[j] != keywords[|keywords| - 1] ==> delay <= p <= delay + 2
  {
    if !ok then 10
    else if keywords[j] != keywords[|keywords| - 1] then delay + spread(j)
    else 0
  }

  /** No later position among the first `n` holds the keyword at `i`: the
      call at `i` is the one whose result the dictionary keeps. */
  predicate LastAt(keywords: seq<string>, i: nat, n: nat)
    requires i < n <= |keywords|
  {
    forall j :: i < j < n ==> keywords[j] != keywords[i]
  }

  /** Every keyword among the first `n` has a last position there. */
  lemma {:induction false} LastAtExists(keywords: seq<string>, i: nat, n: nat)
    requires i < n <= |keywords|
    ensures exists j :: i <= j < n && keywords[j] == keywords[i] && LastAt(keywords, j, n)
    decreases n - i
  {
    if !LastAt(keywords, i, n) {
      var j :| i < j < n && keywords[j] == keywords[i];
      LastAtExists(keywords, j, n);
    } else {
      assert i <= i < n && keywords[i] == keywords[i] && LastAt(keywords, i, n);
    }
  }

  /** After the first `n` keywords: the dictionary lists each of them once,
      in order of first appearance, and maps each to the result of its last
      call (a later assignment overwrites an earlier one). */
  ghost predicate Recorded(results: Dict<Option<Related>>, keywords: seq<string>, n: nat,
                           fetch: (nat, nat) -> Option<Related>)
    requires n <= |keywords|
  {
    results.Valid() && results.keys == FirstAppearances(keywords[..n]) &&
    forall i :: 0 <= i < n && LastAt(keywords, i, n) ==> results.Get(keywords[i]) == Some(Outcome(fetch, i, 0))
  }

  /** Storing the next keyword's result extends the record: a repeated
      keyword keeps its place and takes the new call's result. */
  lemma RecordedStep(results: Dict<Option<Related>>, keywords: seq<string>, n: nat,
                     fetch: (nat, nat) -> Option<Related>)
    requires n < |keywords| && Recorded(results, keywords, n, fetch)
    ensures Recorded(Assign(results, keywords[n], Outcome(fetch, n, 0)), keywords, n + 1, fetch)
  {
    var k, r := keywords[n], Outcome(fetch, n, 0);
    var next := Assign(results, k, r);
    FirstAppearancesStep(keywords, n);
    forall i | 0 <= i < n + 1 && LastAt(keywords, i, n + 1)
      ensures next.Get(keywords[i]) == Some(Outcome(fetch, i, 0))
    {
      if i < n {
        assert keywords[i] != k;
        assert LastAt(keywords, i, n);
        assert next.Get(keywords[i]) == results.Get(keywords[i]);
      }
    }
  }

  /** A keyword listed twice keeps one entry, holding the second call's
      result: `["a", "a"]` ends with the outcome of the call for position 1,
      whatever the call for position 0 returned. */
  lemma DuplicateKeepsLast(results: Dict<Option<Related>>, k: string, fetch: (nat, nat) -> Option<Related>)
    requires Recorded(results, [k, k], 2, fetch)
    ensures results.keys == [k]
    ensures results.Get(k) == Some(Outcome(fetch, 1, 0))
  {
    assert [k, k][..2] == [k, k];
    assert [k, k][..1] == [k];
    assert FirstAppearances([k]) == [k] by {
      assert [k][..0] == [];
    }
    assert LastAt([k, k], 1, 2);
  }

  /** The first appearances among one keyword more. */
  lemma FirstAppearancesStep(keywords: seq<string>, n: nat)
    requires n < |keywords|
    ensures var init := FirstAppearances(keywords[..n]);
      FirstAppearances(keywords[..n + 1]) ==
        if keywords[n] in init then init else init + [keywords[n]]
  {
    assert keywords[..n + 1][..n] == keywords[..n];
  }

  /** After the first `n` keywords, the pauses taken so far. */
  ghost predicate Paused(pauses: seq<int>, keywords: seq<string>, n: nat,
                         fetch: (nat, nat) -> Option<Related>, delay: int, spread: nat -> int)
    requires n <= |keywords|
    requires forall i :: 0 <= spread(i) <= 2
  {
    |pauses| == n &&
    forall i :: 0 <= i < n ==>
      pauses[i] == PauseAfter(keywords, i, Outcome(fetch, i, 0).Some?, delay, spread)
  }

  lemma PausedStep(pauses: seq<int>, keywords: seq<string>, n: nat,
                   fetch: (nat, nat) -> Option<Related>, delay: int, spread: nat -> int)
    requires forall i :: 0 <= spread(i) <= 2
    requires n < |keywords| && Paused(pauses, keywords, n, fetch, delay, spread)
    ensures var p := PauseAfter(keywords, n, Outcome(fetch, n, 0).Some?, delay, spread);
      Paused(pauses + [p], keywords, n + 1, fetch, delay, spread)
  {
  }

  /** `batch_get_queries`: fetch every keyword in order; a keyword whose
      fetch raised on every attempt maps to `None` and the sweep carries
      on; a keyword listed twice is fetched twice and keeps the second
      result. The provider's reply to attempt `a` of the call for
      position `j` is `fetch(j, a)`; the random draws for that call are
      `waits(j, a, i)`, `lag(j, a)`, `jitter(j, a)`, `backoff(j, a)` and
      `spread(j)`; `pauses` are the sleeps taken after each keyword. */
  method BatchGetQueries(limiter: RequestLimiter, keywords: seq<string>, now: int, delay: int,
                         fetch: (nat, nat) -> Option<Related>,
                         waits: (nat, nat, nat) -> int, lag: (nat, nat) -> nat, jitter: (nat, nat) -> int,
                         backoff: (nat, nat) -> int, spread: nat -> int)
    returns (results: Dict<Option<Related>>, t: int, ghost pauses: seq<int>)
    requires limiter.Valid() && limiter.clock <= now
    requires forall j, a, i :: 5 <= waits(j, a, i) <= 10
    requires forall j, a :: 1 <= jitter(j, a) <= 3
    requires forall j, a :: 0 <= backoff(j, a)
    requires forall j :: 0 <= spread(j) <= 2
    requires delay >= 0
    modifies limiter
    ensures limiter.Valid() && limiter.clock <= t && now <= t
    ensures results.Valid() && results.keys == FirstAppearances(keywords)
    ensures forall i :: 0 <= i < |keywords| && LastAt(keywords, i, |keywords|) ==>
      results.Get(keywords[i]) == Some(Outcome(fetch, i, 0))
    ensures |pauses| == |keywords|
    ensures forall i :: 0 <= i < |keywords| ==>
      pauses[i] == PauseAfter(keywords, i, Outcome(fetch, i, 0).Some?, delay, spread)
    ensures old(WithinBudget(limiter.admitted)) ==> WithinBudget(limiter.admitted)
  {
    results := EmptyDict();
    t := now;
    pauses := [];
    for j := 0 to |keywords|
      invariant limiter.Valid() && limiter.clock <= t && now <= t
      invariant Recorded(results, keywords, j, fetch)
      invariant Paused(pauses, keywords, j, fetch, delay, spread)
      invariant old(WithinBudget(limiter.admitted)) ==> WithinBudget(limiter.admitted)
    {
      var data, finished, _ := GetRelatedQueriesRetried(limiter, j, 0, t, fetch,
        (a: nat, i: nat) => waits(j, a, i), (a: nat) => lag(j, a), (a: nat) => jitter(j, a), (a: nat) => backoff(j, a));
      RecordedStep(results, keywords, j, fetch);
      PausedStep(pauses, keywords, j, fetch, delay, spread);
      results := Assign(results, keywords[j], data);
      var pause := PauseAfter(keywords, j, data.Some?, delay, spread);
      pauses := pauses + [pause];
      t := finished + pause;
    }
    assert keywords[..|keywords|] == keywords;
  }

  // ---------------------------------------------------------------------
  // Saving one keyword's result
  // ---------------------------------------------------------------------

  /** `%Y%m%d_%H%M%S`. */
  function FileStamp(d: DateTime): string {
    NatToString(d.year) + ZeroPad2(d.month) + ZeroPad2(d.day) + "_" +
    ZeroPad2(d.hour) + ZeroPad2(d.minute) + ZeroPad2(d.second)
  }

  /** `%Y-%m-%d %H:%M:%S`. */
  function RecordStamp(d: DateTime): string {
    NatToString(d.year) + "-" + ZeroPad2(d.month) + "-" + ZeroPad2(d.day) + " " +
    ZeroPad2(d.hour) + ":" + ZeroPad2(d.minute) + ":" + ZeroPad2(d.second)
  }

  /** A table becomes its list of records; a missing key becomes `null`
      (`dict.get`); anything else is written as it is. */
  function SavedField(f: Field): (r: Field)
    ensures r != Absent
    ensures r.Frame? <==> f.Frame?
    ensures FrameRows(r) == FrameRows(f)
    ensures f != Absent ==> r == f
  {
    if f.Absent? then Null else f
  }

  /** The JSON document written: `keyword`, `timestamp` and
      `related_queries.{top, rising}`. */
  datatype SavedRecord = SavedRecord(keyword: string, timestamp: string, top: Field, rising: Field)

  /** `save_related_queries`: nothing for falsy data; otherwise the file
      name and the record written there. The two clock readings are taken
      separately, as the two `strftime` calls do. */
  function SaveRelatedQueries(keyword: string, data: Option<Related>, fileTime: DateTime, recordTime: DateTime)
    : (r: Option<(string, SavedRecord)>)
    ensures r.None? <==> !Truthy(data)
    ensures r.Some? ==>
      r.value.0 == "related_queries_" + keyword + "_" + FileStamp(fileTime) + ".json" &&
      r.value.1.keyword == keyword && r.value.1.timestamp == RecordStamp(recordTime)
    ensures r.Some? ==>
      FrameRows(r.value.1.top) == FrameRows(data.value.top) &&
      FrameRows(r.value.1.rising) == FrameRows(data.value.rising)
  {
    if !Truthy(data) then None
    else
      var name := "related_queries_" + keyword + "_" + FileStamp(fileTime) + ".json";
      Some((name, SavedRecord(keyword, RecordStamp(recordTime), SavedField(data.value.top), SavedField(data.value.rising))))
  }

  /** A month, day and time of day as a clock shows them. */
  predicate ValidTime(d: DateTime) {
    1 <= d.month <= 12 && 1 <= d.day <= 31 && d.hour < 24 && d.minute < 60 && d.second < 60
  }

  /** Within one year of four digits, distinct instants get distinct file
      stamps: the stamp is fixed-width and each field can be read back. */
  lemma FileStampInjective(d1: DateTime, d2: DateTime)
    requires ValidTime(d1) && ValidTime(d2)
    requires 1000 <= d1.year <= 9999 && 1000 <= d2.year <= 9999
    requires FileStamp(d1) == FileStamp(d2)
    ensures d1 == d2
  {
    var s := FileStamp(d1);
    FieldsAt(d1);
    FieldsAt(d2);
    NatToStringInjective(d1.year, d2.year);
    assert ParseDigits(s[4..6]) == d1.month == d2.month;
    assert ParseDigits(s[6..8]) == d1.day == d2.day;
    assert ParseDigits(s[9..11]) == d1.hour == d2.hour;
    assert ParseDigits(s[11..13]) == d1.minute == d2.minute;
    assert ParseDigits(s[13..15]) == d1.second == d2.second;
  }

  /** A four-digit year prints as four characters. */
  lemma YearWidth(y: nat)
    requires 1000 <= y <= 9999
    ensures |NatToString(y)| == 4
  {
    var a := y / 10;
    var b := a / 10;
    var c := b / 10;
    assert 1 <= c < 10;
    assert |NatToString(b)| == 2;
    assert |NatToString(a)| == 3;
  }

  /** The fields of a file stamp sit at fixed offsets after the year. */
  lemma FieldsAt(d: DateTime)
    requires ValidTime(d) && 1000 <= d.year <= 9999
    ensures var s := FileStamp(d);
      |s| == 15 && s[..4] == NatToString(d.year) &&
      s[4..6] == ZeroPad2(d.month) && s[6..8] == ZeroPad2(d.day) &&
      s[9..11] == ZeroPad2(d.hour) && s[11..13] == ZeroPad2(d.minute) && s[13..15] == ZeroPad2(d.second)
  {
    YearWidth(d.year);
  }
}
