/**
  * The request limiter that every trend query passes through
  * (`RequestLimiter` in querytrends.py). It keeps the timestamps of the
  * requests it admitted, forgets those an hour old, and admits a new
  * request only while fewer than 30 fall in the last minute and fewer than
  * 200 remain. Time is an integer number of seconds supplied by the caller;
  * the caller's clock never runs backwards.
  */
module RateLimit {

  const MaxRequestsPerMinute: nat := 30
  const MaxRequestsPerHour: nat := 200
  const Minute: int := 60
  const Hour: int := 3600

  /** The timestamps in `s` for which `now - t < w`, in their original order
      (the list comprehensions of `can_make_request`). */
  function Recent(s: seq<int>, now: int, w: int): (r: seq<int>)
    ensures |r| <= |s|
  {
    if s == [] then []
    else
      var init := Recent(s[..|s| - 1], now, w);
      assert s == s[..|s| - 1] + [s[|s| - 1]];
      if now - s[|s| - 1] < w then init + [s[|s| - 1]] else init
  }

  /** The window holds exactly the entries younger than `w` at `now`. */
  lemma {:induction false} RecentMembers(s: seq<int>, now: int, w: int)
    ensures forall x :: x in Recent(s, now, w) <==> x in s && now - x < w
  {
    if s != [] {
      RecentMembers(s[..|s| - 1], now, w);
      assert s == s[..|s| - 1] + [s[|s| - 1]];
    }
  }

  /** One timestamp's membership of the window. */
  lemma RecentMember(s: seq<int>, now: int, w: int, x: int)
    ensures x in Recent(s, now, w) <==> x in s && now - x < w
  {
    RecentMembers(s, now, w);
  }

  predicate AllAtMost(s: seq<int>, c: int) {
    forall i :: 0 <= i < |s| ==> s[i] <= c
  }

  /** Non-decreasing: each timestamp is no earlier than the one before it. */
  predicate Sorted(s: seq<int>) {
    |s| <= 1 || (Sorted(s[..|s| - 1]) && s[|s| - 2] <= s[|s| - 1])
  }

  /** In a sorted list every entry is at most the last one. */
  lemma {:induction false} SortedBelowLast(s: seq<int>)
    requires Sorted(s) && s != []
    ensures AllAtMost(s, s[|s| - 1])
  {
    if |s| > 1 {
      SortedBelowLast(s[..|s| - 1]);
    }
  }

  /** Sorted means every earlier entry is at most every later one. */
  lemma {:induction false} SortedPairs(s: seq<int>)
    requires Sorted(s)
    ensures forall i, j :: 0 <= i < j < |s| ==> s[i] <= s[j]
  {
    if |s| > 1 {
      var init := s[..|s| - 1];
      SortedPairs(init);
      SortedBelowLast(s);
      assert forall i, j :: 0 <= i < j < |init| ==> s[i] == init[i] && s[j] == init[j];
    }
  }

  /** Appending an entry no earlier than all others keeps a list sorted. */
  lemma SortedAppend(s: seq<int>, x: int)
    requires Sorted(s) && AllAtMost(s, x)
    ensures Sorted(s + [x]) && AllAtMost(s + [x], x)
  {
    assert (s + [x])[..|s|] == s;
  }

  /** Filtering the entries younger than `w` at `now` keeps a sorted list
      sorted. */
  lemma {:induction false} RecentSorted(s: seq<int>, now: int, w: int)
    requires Sorted(s)
    ensures Sorted(Recent(s, now, w))
  {
    if s != [] {
      var init := s[..|s| - 1];
      var x := s[|s| - 1];
      assert Sorted(init);
      RecentSorted(init, now, w);
      RecentMembers(init, now, w);
      SortedBelowLast(s);
      var r := Recent(init, now, w);
      forall i | 0 <= i < |r| ensures r[i] <= x {
        RecentMember(init, now, w, r[i]);
        var j :| 0 <= j < |init| && init[j] == r[i];
        assert s[j] == init[j];
      }
      if now - x < w {
        SortedAppend(r, x);
      }
    }
  }

  /** Filtering with a window that ends no earlier than a first filter's
      makes the first filter redundant. */
  lemma {:induction false} RecentRecent(s: seq<int>, t1: int, w1: int, t2: int, w2: int)
    requires t1 - w1 <= t2 - w2
    ensures Recent(Recent(s, t1, w1), t2, w2) == Recent(s, t2, w2)
  {
    if s != [] {
      var init := s[..|s| - 1];
      var x := s[|s| - 1];
      RecentRecent(init, t1, w1, t2, w2);
      if t1 - x < w1 {
        assert Recent(Recent(init, t1, w1) + [x], t2, w2) == Recent(Recent(init, t1, w1), t2, w2) + (if t2 - x < w2 then [x] else []) by {
          assert (Recent(init, t1, w1) + [x])[..|Recent(init, t1, w1)|] == Recent(init, t1, w1);
        }
      }
    }
  }

  /** The later the instant, the fewer entries lie in the window before it. */
  lemma {:induction false} RecentShrinks(s: seq<int>, t1: int, t2: int, w: int)
    requires t1 <= t2
    ensures |Recent(s, t2, w)| <= |Recent(s, t1, w)|
  {
    if s != [] {
      RecentShrinks(s[..|s| - 1], t1, t2, w);
    }
  }

  /** Appending one timestamp extends the window by that timestamp exactly
      when it lies inside it. */
  lemma RecentAppend(s: seq<int>, x: int, now: int, w: int)
    ensures Recent(s + [x], now, w) == Recent(s, now, w) + (if now - x < w then [x] else [])
  {
    assert (s + [x])[..|s|] == s;
  }

  /** The outcome of `can_make_request` at `now` for the stored list `requests`:
      after pruning to the last hour, fewer than 30 entries lie in the last
      minute and fewer than 200 remain. */
  predicate Admissible(requests: seq<int>, now: int) {
    var kept := Recent(requests, now, Hour);
    !(|Recent(kept, now, Minute)| >= MaxRequestsPerMinute || |kept| >= MaxRequestsPerHour)
  }

  /** The check reads the same whether or not an earlier pruning already
      dropped the entries an hour older than an earlier instant. */
  lemma AdmissibleAfterPrune(initial: seq<int>, before: seq<int>, t0: int, t1: int)
    requires t0 <= t1 && before == Recent(initial, t0, Hour)
    ensures Admissible(before, t1) == Admissible(initial, t1)
  {
    RecentRecent(initial, t0, Hour, t1, Hour);
  }

  /** The budget every admission log keeps: at the moment of each admission,
      counting that admission, at most 30 admissions lie in the last minute
      and at most 200 in the last hour. */
  ghost predicate WithinBudget(log: seq<int>) {
    forall k :: 0 <= k < |log| ==> BudgetAt(log, k)
  }

  /** The budget at the moment of the admission `log[k]`. */
  ghost predicate BudgetAt(log: seq<int>, k: nat)
    requires k < |log|
  {
    |Recent(log[..k + 1], log[k], Minute)| <= MaxRequestsPerMinute &&
    |Recent(log[..k + 1], log[k], Hour)| <= MaxRequestsPerHour
  }

  /** The admissions that happened by the instant `tau`. */
  function Upto(log: seq<int>, tau: int): (r: seq<int>)
    ensures forall x :: x in r <==> x in log && x <= tau
  {
    if log == [] then []
    else
      assert log == log[..|log| - 1] + [log[|log| - 1]];
      if log[|log| - 1] <= tau then Upto(log[..|log| - 1], tau) + [log[|log| - 1]]
      else Upto(log[..|log| - 1], tau)
  }

  lemma {:induction false} UptoAll(log: seq<int>, tau: int)
    requires forall i :: 0 <= i < |log| ==> log[i] <= tau
    ensures Upto(log, tau) == log
  {
    if log != [] {
      UptoAll(log[..|log| - 1], tau);
    }
  }

  /** A log that kept its budget at every admission keeps it at every
      instant: whatever moment `tau` one inspects, the admissions made by
      then include at most 30 in the minute before `tau` and at most 200 in
      the hour before it. */
  lemma {:induction false} BudgetAtEveryInstant(log: seq<int>, tau: int)
    requires Sorted(log) && WithinBudget(log)
    ensures |Recent(Upto(log, tau), tau, Minute)| <= MaxRequestsPerMinute
    ensures |Recent(Upto(log, tau), tau, Hour)| <= MaxRequestsPerHour
  {
    if log != [] {
      if log[|log| - 1] <= tau {
        BudgetAtLatest(log, tau);
      } else {
        WithinBudgetPrefix(log);
        BudgetAtEveryInstant(log[..|log| - 1], tau);
      }
    }
  }

  /** Once the last admission has happened, the windows ending at `tau`
      hold no more than they held at that admission. */
  lemma BudgetAtLatest(log: seq<int>, tau: int)
    requires Sorted(log) && WithinBudget(log) && log != [] && log[|log| - 1] <= tau
    ensures |Recent(Upto(log, tau), tau, Minute)| <= MaxRequestsPerMinute
    ensures |Recent(Upto(log, tau), tau, Hour)| <= MaxRequestsPerHour
  {
    var n := |log|;
    var y := log[n - 1];
    SortedBelowLast(log);
    UptoAll(log, tau);
    assert log[..n] == log;
    assert BudgetAt(log, n - 1);
    RecentShrinks(log, y, tau, Minute);
    RecentShrinks(log, y, tau, Hour);
  }

  /** Dropping the latest admission keeps the budget. */
  lemma WithinBudgetPrefix(log: seq<int>)
    requires WithinBudget(log) && log != []
    ensures WithinBudget(log[..|log| - 1])
  {
    var p := log[..|log| - 1];
    forall k | 0 <= k < |p| ensures BudgetAt(p, k) {
      assert p[..k + 1] == log[..k + 1] && p[k] == log[k];
      assert BudgetAt(log, k);
    }
  }

  /** Recording an admission at `at`, no earlier than an instant `t` at
      which the check passed against a retained list that agrees with the
      log on the hour before `t`, keeps the budget. */
  lemma AdmissionKeepsBudget(log: seq<int>, retained: seq<int>, t: int, at: int)
    requires WithinBudget(log) && t <= at
    requires Recent(retained, t, Hour) == Recent(log, t, Hour)
    requires Admissible(retained, t)
    ensures WithinBudget(log + [at])
  {
    var log' := log + [at];
    forall k | 0 <= k < |log'| ensures BudgetAt(log', k) {
      if k < |log| {
        assert log'[..k + 1] == log[..k + 1] && log'[k] == log[k];
        assert BudgetAt(log, k);
      } else {
        assert log'[..k + 1] == log';
        RecentAppend(log, at, at, Minute);
        RecentAppend(log, at, at, Hour);
        RecentShrinks(log, t, at, Minute);
        RecentShrinks(log, t, at, Hour);
        RecentRecent(log, t, Hour, t, Minute);
      }
    }
  }

  function Sum(s: seq<int>): int {
    if s == [] then 0 else Sum(s[..|s| - 1]) + s[|s| - 1]
  }

  /** The limiter's invariant on its list, its admission log and its clock:
      both are sorted, nothing lies in the future of the clock, and on the
      last hour the list agrees with the log. */
  predicate Consistent(requests: seq<int>, admitted: seq<int>, clock: int) {
    Sorted(requests) && Sorted(admitted) &&
    AllAtMost(requests, clock) && AllAtMost(admitted, clock) &&
    Recent(requests, clock, Hour) == Recent(admitted, clock, Hour)
  }

  /** On the last hour, a consistent list agrees with the log at any later
      instant too. */
  lemma AgreesLater(requests: seq<int>, admitted: seq<int>, clock: int, now: int)
    requires Consistent(requests, admitted, clock) && clock <= now
    ensures Recent(requests, now, Hour) == Recent(admitted, now, Hour)
  {
    RecentRecent(requests, clock, Hour, now, Hour);
    RecentRecent(admitted, clock, Hour, now, Hour);
  }

  /** Pruning at a later instant keeps the invariant. */
  lemma PruneConsistent(requests: seq<int>, admitted: seq<int>, clock: int, now: int)
    requires Consistent(requests, admitted, clock) && clock <= now
    ensures Consistent(Recent(requests, now, Hour), admitted, now)
  {
    var r := Recent(requests, now, Hour);
    RecentSorted(requests, now, Hour);
    forall i | 0 <= i < |r| ensures r[i] <= now {
      RecentMember(requests, now, Hour, r[i]);
      var j :| 0 <= j < |requests| && requests[j] == r[i];
    }
    AgreesLater(requests, admitted, clock, now);
    RecentRecent(requests, now, Hour, now, Hour);
  }

  /** Recording a request at a later instant keeps the invariant. */
  lemma AppendConsistent(requests: seq<int>, admitted: seq<int>, clock: int, now: int)
    requires Consistent(requests, admitted, clock) && clock <= now
    ensures Consistent(requests + [now], admitted + [now], now)
  {
    AgreesLater(requests, admitted, clock, now);
    RecentAppend(requests, now, now, Hour);
    RecentAppend(admitted, now, now, Hour);
    SortedAppend(requests, now);
    SortedAppend(admitted, now);
  }

  /** What survives a pruning of a sorted list ends no later than the list
      did, and is young at the pruning instant. */
  lemma PruneLast(s: seq<int>, now: int)
    requires Sorted(s) && Recent(s, now, Hour) != []
    ensures var r := Recent(s, now, Hour);
      s != [] && r[|r| - 1] <= s[|s| - 1] && now - r[|r| - 1] < Hour
  {
    var r := Recent(s, now, Hour);
    RecentMembers(s, now, Hour);
    SortedBelowLast(s);
    assert r[|r| - 1] in r;
    assert r[|r| - 1] in s;
  }

  /** Recording a request at `at` after a check that passed at `t <= at`:
      the retained list plus `at` stays within both caps, and the log stays
      within budget. */
  lemma AdmitFacts(initial: seq<int>, admitted: seq<int>, t: int, at: int)
    requires Consistent(Recent(initial, t, Hour), admitted, t) && t <= at
    requires Admissible(initial, t)
    ensures var retained := Recent(initial, t, Hour) + [at];
      |Recent(retained, at, Minute)| <= MaxRequestsPerMinute &&
      |retained| <= MaxRequestsPerHour
    ensures WithinBudget(admitted) ==> WithinBudget(admitted + [at])
  {
    var kept := Recent(initial, t, Hour);
    RecentRecent(initial, t, Hour, t, Hour);
    RecentRecent(initial, t, Hour, t, Minute);
    RecentAppend(kept, at, at, Minute);
    RecentShrinks(kept, t, at, Minute);
    if WithinBudget(admitted) {
      AdmissionKeepsBudget(admitted, initial, t, at);
    }
  }

  /** One more check of the polling loop, at `t`, after one at `t0`: the
      pruned list is still the original list pruned at the latest check,
      the answer is the one the original list gives, and the newest
      survivor is no newer than before and still young. */
  lemma RetryStep(initial: seq<int>, before: seq<int>, after: seq<int>, t0: int, t: int, ok: bool)
    requires Sorted(before) && t0 < t
    requires before == Recent(initial, t0, Hour) && after == Recent(before, t, Hour)
    requires ok <==> Admissible(before, t)
    ensures Pruned(initial, after, t, ok)
    ensures 0 <= Slack(after, t) && (before != [] ==> Slack(after, t) < Slack(before, t0))
  {
    RecentRecent(initial, t0, Hour, t, Hour);
    if after != [] {
      PruneLast(before, t);
    }
  }

  /** The state of the polling loop after a check at `t` that answered
      `ok`: the list is the original one pruned at `t`, the answer is the
      one the original list gives, and a refusal leaves a young entry. */
  ghost predicate Pruned(initial: seq<int>, requests: seq<int>, t: int, ok: bool) {
    requests == Recent(initial, t, Hour) &&
    (ok <==> Admissible(initial, t)) &&
    (!ok ==> requests != [] && 0 < Slack(requests, t))
  }

  /** How long until the newest tracked request is an hour old: the
      polling loop's termination measure. */
  function Slack(requests: seq<int>, now: int): int {
    if requests == [] then 0 else requests[|requests| - 1] + Hour - now
  }

  /** The history of a polling loop that started at `now` against the list
      `initial`: `checks` are the instants of the checks, `slept` the sleeps
      between them; the `i`-th sleep is `waits(i)` and follows a check that
      failed. */
  ghost predicate Polled(initial: seq<int>, now: int, waits: nat -> int, checks: seq<int>, slept: seq<int>) {
    |checks| == |slept| + 1 && checks[0] == now &&
    forall i :: 0 <= i < |slept| ==>
      slept[i] == waits(i) && checks[i + 1] == checks[i] + slept[i] && !Admissible(initial, checks[i])
  }

  /** A failed check followed by the next sleep extends the history. */
  lemma PolledStep(initial: seq<int>, now: int, waits: nat -> int, checks: seq<int>, slept: seq<int>,
                   checks': seq<int>, slept': seq<int>)
    requires Polled(initial, now, waits, checks, slept)
    requires !Admissible(initial, checks[|slept|])
    requires slept' == slept + [waits(|slept|)]
    requires checks' == checks + [checks[|slept|] + waits(|slept|)]
    ensures Polled(initial, now, waits, checks', slept')
  {
    forall i | 0 <= i < |slept'|
      ensures slept'[i] == waits(i) && checks'[i + 1] == checks'[i] + slept'[i] && !Admissible(initial, checks'[i])
    {
      if i < |slept| {
        assert slept'[i] == slept[i] && checks'[i] == checks[i] && checks'[i + 1] == checks[i + 1];
      }
    }
  }

  class RequestLimiter {
    /** `self.requests`: the timestamps still being tracked. */
    var requests: seq<int>
    /** Every admission ever recorded, oldest first; never pruned. */
    ghost var admitted: seq<int>
    /** The latest instant the limiter has been shown. */
    ghost var clock: int

    ghost predicate Valid()
      reads this
    {
      Consistent(requests, admitted, clock)
    }

    /** `RequestLimiter()`, created at instant `start`. */
    constructor (ghost start: int)
      ensures Valid() && requests == [] && admitted == [] && clock == start
      ensures WithinBudget(admitted)
    {
      requests := [];
      admitted := [];
      clock := start;
    }

    /** `can_make_request`: prune to the last hour, then answer whether a
        request may go out now. */
    method CanMakeRequest(now: int) returns (ok: bool)
      requires Valid() && clock <= now
      modifies this
      ensures Valid() && clock == now && admitted == old(admitted)
      ensures requests == Recent(old(requests), now, Hour)
      ensures ok <==> Admissible(old(requests), now)
    {
      PruneConsistent(requests, admitted, clock, now);
      requests := Recent(requests, now, Hour);
      clock := now;
      var recentMinRequests := |Recent(requests, now, Minute)|;
      var recentHourRequests := |requests|;
      ok := !(recentMinRequests >= MaxRequestsPerMinute || recentHourRequests >= MaxRequestsPerHour);
    }

    /** `add_request`: record one request made at `now`. */
    method AddRequest(now: int)
      requires Valid() && clock <= now
      modifies this
      ensures Valid() && clock == now
      ensures requests == old(requests) + [now]
      ensures admitted == old(admitted) + [now]
    {
      AppendConsistent(requests, admitted, clock, now);
      requests := requests + [now];
      admitted := admitted + [now];
      clock := now;
    }

    /** The polling loop of `wait_if_needed`: check at `now`; while the
        check fails, sleep `waits(i)` seconds and check again. `checks` are
        the instants of the checks made, `slept` the sleeps between them;
        the loop ends at the first instant `t` at which the check passes. */
    method AwaitAdmission(now: int, waits: nat -> int) returns (t: int, ghost checks: seq<int>, ghost slept: seq<int>)
      requires Valid() && clock <= now
      requires forall i :: 5 <= waits(i) <= 10
      modifies this
      ensures Valid() && clock == t && now <= t && admitted == old(admitted)
      ensures Polled(old(requests), now, waits, checks, slept) && checks[|slept|] == t
      ensures Admissible(old(requests), t)
      ensures requests == Recent(old(requests), t, Hour)
    {
      t := now;
      checks, slept := [now], [];
      ghost var initial := requests;
      var tries: nat := 0;
      var ok := CanMakeRequest(t);
      if requests != [] {
        PruneLast(initial, t);
      }
      while !ok
        invariant tries == |slept| && Polled(initial, now, waits, checks, slept) && checks[|slept|] == t
        invariant Valid() && clock == t && now <= t && admitted == old(admitted)
        invariant Pruned(initial, requests, t, ok)
        decreases Slack(requests, t)
      {
        var w := waits(tries);
        ghost var before, t0, earlier, gaps := requests, t, checks, slept;
        slept := slept + [w];
        tries := tries + 1;
        t := t + w;
        checks := checks + [t];
        PolledStep(initial, now, waits, earlier, gaps, checks, slept);
        ok := CanMakeRequest(t);
        RetryStep(initial, before, requests, t0, t, ok);
      }
    }

    /** `wait_if_needed`: wait until the check passes at `t`, then record
        one request at the instant `at` that `add_request` reads from the
        clock, `lag` seconds after the passing check. Each sleep is a draw
        from [5, 10] seconds. */
    method WaitIfNeeded(now: int, waits: nat -> int, lag: nat)
      returns (t: int, at: int, ghost checks: seq<int>, ghost slept: seq<int>)
      requires Valid() && clock <= now
      requires forall i :: 5 <= waits(i) <= 10
      modifies this
      ensures Valid() && clock == at && now <= t && at == t + lag
      ensures Polled(old(requests), now, waits, checks, slept) && checks[|slept|] == t
      ensures Admissible(old(requests), t)
      ensures requests == Recent(old(requests), t, Hour) + [at]
      ensures admitted == old(admitted) + [at]
      ensures |Recent(requests, at, Minute)| <= MaxRequestsPerMinute
      ensures |requests| <= MaxRequestsPerHour
      ensures old(WithinBudget(admitted)) ==> WithinBudget(admitted)
    {
      ghost var initial := requests;
      t, checks, slept := AwaitAdmission(now, waits);
      at := t + lag;
      AdmissibleAfterPrune(initial, requests, t, t);
      AdmitFacts(initial, admitted, t, at);
      AddRequest(at);
    }
  }
}
