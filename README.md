# Google Trends related-queries monitor — a Dafny model

The system polls Google Trends for the related queries of a list of
keywords. It pushes every request through a sliding-window rate limiter
and attempts each fetch at most five times. It works through the
keywords in batches and keeps the rising queries whose growth is above a
threshold as alerts. It flattens the kept results into a daily report and
sends the report and the alert list as notifications, by e-mail and/or
WeChat. The WeChat copy is plain text: the HTML body is converted to text
and each line is reformatted by kind.

The model has seven modules:

- `Wrappers` (`wrappers.dfy`): `Option` and `Result`.
- `Text` (`text.dfy`): the Python string operations the code relies on.
  These are `find`, `split(sep, 1)`, `split('\n')`, `'\n'.join`,
  `strip`/`strip(chars)`, `replace`, `startswith`/`endswith`, `str(int)`
  and `%02d`, each with the lemmas the rest of the model needs.
- `Records` (`records.dfy`): the values passed between the parts. These
  are a table row, the provider's `{top, rising}` result, a report row,
  and Python's insertion-ordered `dict` as `Dict`.
- `RateLimit` (`rate_limit.dfy`): the `RequestLimiter` class.
- `QueryTrends` (`query_trends.dfy`): `get_related_queries` with its retry
  ceiling, `batch_get_queries`, and the file name and record of
  `save_related_queries`.
- `TrendsMonitor` (`trends_monitor.dfy`): `check_rising_trends`,
  `generate_daily_report`, `process_keywords_batch` as a `Collector` class
  owning `all_results` and `high_rising_trends`, the batch loop and the
  bodies of `process_trends`, and the start-time arithmetic of
  `run_scheduler`.
- `Notification` (`notification.dfy`): `_html_to_text`,
  `_format_wechat_message`, and the `NotificationManager` class with
  `_init_wechat`, `_send_wechat` and `send_notification`.

The environment becomes parameters:

- Time is an integer number of seconds. The caller passes the starting
  instant; after that the model advances it only by the sleeps and the
  `lag` of `add_request`. The limiter's ghost `clock` records the latest
  instant it has seen, and every method requires a clock that does not
  run backwards.
- Random draws are functions from the draw's index to a value, with the
  source's ranges as preconditions:
  - [5, 10] for the limiter's sleep;
  - [1, 3] for the pre-call sleep;
  - [0, 2] for the pause between keywords;
  - [0, 60] for the batch interval.
  Sleeps are returned in ghost logs.
- The trend provider is an oracle `fetch(call, attempt)`, where `call` is
  the position of the keyword in the list handed to `batch_get_queries`
  and `None` means that attempt raised. A keyword listed twice is fetched
  twice and may get two different answers.
- `add_request` reads the clock again after the passing check. That
  reading is the check's instant plus a `lag` parameter, which is at least
  zero.
- `process_trends` receives what each batch fetched as `fetched(b)`. It
  receives whether saving the file of keyword `k` in batch `b` succeeds as
  `saved(b)(k)`.
- The notifier receives three inputs:
  - whether the e-mail went out (`emailSent`);
  - whether a WeChat login succeeds (`login`);
  - whether `itchat.send` returned normally (`delivered`).

Points of the code's behaviour that the model keeps:

- A fetch is attempted at most five times, with one back-off pause
  between attempts. No wait depends on the kind of error. A WeChat message
  is one `itchat.send` call; it is not split into chunks and is not
  retried as a whole.
- A failed fetch does not end a batch: `batch_get_queries` maps the
  keyword to `None` and goes on. A raise while saving or moving a result's
  file does: `process_keywords_batch` returns `False`. The results stored
  before the raise are kept, and the rest of the batch is skipped.
- Tag deletion is the regular expression `<[^<]+?>`. It deletes a `<`
  together with the next character, which must not be `<`, and everything
  up to the first `>` after that character, provided no `<` comes in
  between. A `<` with no `>` after it stays, and so does `<>` on its own.
- `batch_get_queries` catches every exception itself. The retry decorator
  on `get_trends_with_retry` therefore never sees one, and it is not
  modelled as retrying.
- `trends_monitor.py` creates a second `RequestLimiter` that no call uses.
  Only the limiter of `querytrends.py` is modelled.

## Model

| member | source | states |
|---|---|---|
| Records.Truthy | trends_monitor.py:155-156 | a fetched result is falsy when it is `None` or an empty dictionary, as `if data:` reads it |
| Records.Assign | querytrends.py:123-133 | `results[keyword] = value`: an existing key keeps its place and takes the new value, a new key goes last; every other key is unchanged |
| RateLimit.Recent | querytrends.py:245-249 | the timestamps younger than the window at `now`, in their original order; never more than the list held |
| RateLimit.Admissible | querytrends.py:248-258 | the check passes exactly when, after pruning to the last hour, fewer than 30 entries are in the last minute and fewer than 200 remain |
| RateLimit.RecentMembers | querytrends.py:245-246 | a timestamp survives pruning exactly when it was tracked and `now - t < 3600` |
| RateLimit.RecentSorted | querytrends.py:245-246 | pruning keeps a sorted list sorted (the comprehension keeps order) |
| RateLimit.RecentRecent | querytrends.py:245-249 | filtering the log with a window whose start is no earlier than a first filter's makes the first filter redundant; so the one-hour pruning does not change the one-minute count |
| RateLimit.RecentShrinks | querytrends.py:245-246 | the window only loses entries as the clock advances |
| RateLimit.RecentAppend | querytrends.py:245-262 | pruning after an append prunes the old list and keeps the new entry only if it is in the window |
| RateLimit.SortedAppend | querytrends.py:260-262 | appending the current time to a list of earlier times keeps it sorted |
| RateLimit.SortedPairs | querytrends.py:260-262 | a sorted list is ordered at every pair of positions |
| RateLimit.AdmissibleAfterPrune | querytrends.py:245-258 | the check answers the same on a list already pruned at an earlier instant as on the original |
| RateLimit.BudgetAtEveryInstant | querytrends.py:254-270 | when every admission kept the budget, at any instant at most 30 admissions lie in the last minute and at most 200 in the last hour |
| RateLimit.AdmissionKeepsBudget | querytrends.py:264-270 | an admission that passed the check keeps the whole admission log within budget |
| RateLimit.PruneConsistent | querytrends.py:245-246 | pruning keeps the list sorted, in the past of the clock, and equal to the admission log on the last hour |
| RateLimit.AppendConsistent | querytrends.py:260-262 | recording a request keeps that same invariant |
| RateLimit.RetryStep | querytrends.py:264-269 | each failed check prunes further, answers as the original list would, and shrinks the time until the newest entry is an hour old (why the wait loop ends) |
| RateLimit.PolledStep | querytrends.py:266-269 | the history of checks and sleeps grows by one failed check and the next `[5, 10]` draw |
| RateLimit.RequestLimiter.constructor | querytrends.py:236-239 | the limiter starts with no requests |
| RateLimit.RequestLimiter.CanMakeRequest | querytrends.py:241-258 | the list becomes exactly the entries with `now - t < 3600`, in order; the answer is false exactly when 30 or more are in the last 60 seconds or 200 or more remain |
| RateLimit.RequestLimiter.AddRequest | querytrends.py:260-262 | exactly one timestamp, the current time, is appended; earlier entries are unchanged |
| RateLimit.RequestLimiter.AwaitAdmission | querytrends.py:264-269 | the loop sleeps one draw after each failed check and stops at the first passing check; nothing is recorded |
| RateLimit.RequestLimiter.WaitIfNeeded | querytrends.py:264-270 | exactly one request is recorded, at `add_request`'s own clock reading, no earlier than the first passing check; it is in the new list and the admission log; afterwards at most 30 entries are in the last minute and at most 200 remain; the budget of the whole log is kept |
| QueryTrends.Outcome | querytrends.py:57-112 | the reply of the first of the five attempts that does not raise, `None` when all raise |
| QueryTrends.PauseAfter | querytrends.py:126-136 | 10 after a failure, even after the last keyword; after a success, 0 when the keyword equals the list's last one by value, otherwise between `delay` and `delay + 2` |
| QueryTrends.OutcomeSpec | querytrends.py:57-112 | the retried call fails exactly when all five attempts raise; otherwise it returns what an attempt returned |
| QueryTrends.Attempts | querytrends.py:57-61 | between one and five attempts are made |
| QueryTrends.AttemptsFailBeforeLast | querytrends.py:57-112 | every attempt before the last raised; the last one succeeded exactly when the call did |
| QueryTrends.GetRelatedQueries | querytrends.py:94-108 | the limiter admits the request (one entry in its log) before the provider is called, after a `[1, 3]` pause |
| QueryTrends.GetRelatedQueriesRetried | querytrends.py:57-112 | the result is the first non-raising attempt's reply (or `None`); each attempt passes the limiter, once, before its call |
| QueryTrends.RecordedStep | querytrends.py:120-133 | storing the next keyword keeps the dictionary's keys the first appearances of the keywords so far; each keyword maps to the result of its last call, because a repeated keyword's new result overwrites the old one |
| QueryTrends.LastAtExists | querytrends.py:120-133 | every keyword in the list has a last position, so every key of the dictionary has a value fixed by one call |
| QueryTrends.DuplicateKeepsLast | querytrends.py:120-133 | for `[k, k]` the dictionary has the one key `k`, holding the second call's result |
| QueryTrends.PausedStep | querytrends.py:126-136 | the pause log grows by the pause of the next keyword |
| QueryTrends.BatchGetQueries | querytrends.py:114-138 | one entry per distinct keyword, in first-appearance order, each mapped to the retried result of its last position in the list (`None` when every attempt raised); the pause after each keyword is `delay + u` after a success unless it equals the last keyword, and 10 after a failure |
| QueryTrends.SavedField | querytrends.py:152-153 | a table is written as its records; a missing key is written as `null`; anything else is written unchanged |
| QueryTrends.SaveRelatedQueries | querytrends.py:140-162 | falsy data writes nothing and returns `None`; otherwise the file name is `related_queries_<keyword>_<YYYYmmdd_HHMMSS>.json` and the record holds the keyword, the time stamp and both tables |
| QueryTrends.FileStampInjective | querytrends.py:147-158 | two valid instants with four-digit years give the same file stamp only when they are the same instant |
| TrendsMonitor.Above | trends_monitor.py:92-94 | the rows with `value > threshold`, in row order; never more rows than the table |
| TrendsMonitor.AboveMembers | trends_monitor.py:92-94 | a row is kept exactly when it is in the table and its value is strictly above the threshold |
| TrendsMonitor.AboveAppend | trends_monitor.py:92-94 | filtering a concatenation filters each part, keeping row order |
| TrendsMonitor.AboveAbove | trends_monitor.py:92-94 | filtering at a lower threshold first changes nothing |
| TrendsMonitor.CheckRisingTrends | trends_monitor.py:84-95 | falsy data or a missing, `None` or non-table rising entry gives `[]`; otherwise the rising rows above the threshold, in order |
| TrendsMonitor.Tagged | trends_monitor.py:103-120 | one report row per table row, in order, with that row's query and value and the keyword and type |
| TrendsMonitor.ReportRows | trends_monitor.py:101-120 | for each keyword in dictionary order, its rising rows tagged `rising`, then its top rows tagged `top` |
| TrendsMonitor.ReportRowCount | trends_monitor.py:99-120 | the report has as many rows as there are rising and top table rows across the results |
| TrendsMonitor.ReportEmpty | trends_monitor.py:122-128 | the report is empty exactly when no result has a table row |
| TrendsMonitor.ReportBlock | trends_monitor.py:101-120 | the rows of one keyword and one type are exactly that keyword's table of that type, tagged, in row order |
| TrendsMonitor.ReportAbsent | trends_monitor.py:101-120 | a keyword with no result has no report rows |
| TrendsMonitor.SelectKeywordRows | trends_monitor.py:101-120 | one keyword's contribution holds its rising block and its top block and nothing for other keywords |
| TrendsMonitor.AppendTable | trends_monitor.py:102-120 | the `iterrows` loop appends one tagged row per table row and nothing when there is no table |
| TrendsMonitor.GenerateDailyReport | trends_monitor.py:97-128 | the report is `None` exactly when it would have no rows; otherwise it is every keyword's rising rows then top rows, in result order |
| TrendsMonitor.Batches | trends_monitor.py:184-185 | the slices `ks[i:i+size]` for `i` = 0, `size`, … below `len(ks)` |
| TrendsMonitor.BatchesCover | trends_monitor.py:184-185 | the batches concatenate back to the keyword list |
| TrendsMonitor.BatchesSized | trends_monitor.py:184-185 | every batch is non-empty and at most `batch_size` long; there are `ceil(len / batch_size)` of them |
| TrendsMonitor.AlertsFor | trends_monitor.py:163-164 | one alert per trend, in order, carrying the keyword, query and value |
| TrendsMonitor.Gathered | trends_monitor.py:155-166 | the accumulators after the first `n` entries of a batch's results: each truthy result is stored under its keyword and its alerts appended; the dictionary stays well formed |
| TrendsMonitor.FirstFailure | trends_monitor.py:155-159 | the first truthy entry whose save raises; none before it raises |
| TrendsMonitor.GatheredGet | trends_monitor.py:155-166 | only truthy results are added, each under its keyword; other keywords keep their result |
| TrendsMonitor.GatheredExtends | trends_monitor.py:155-166 | processing keeps what was collected before and only appends alerts of this batch's keywords above the threshold |
| TrendsMonitor.Collector.constructor | trends_monitor.py:180-181 | the accumulators start empty |
| TrendsMonitor.Collector.ProcessKeywordsBatch | trends_monitor.py:148-171 | the updates made before the first raise are kept; the raising entry and the rest of the batch are not; the result is true exactly when nothing raised |
| TrendsMonitor.BatchesStep | trends_monitor.py:184-193 | taking one batch keeps taken-plus-remaining equal to all batches; the batch is the last exactly when it takes every remaining keyword |
| TrendsMonitor.WaitsStep | trends_monitor.py:186-196 | the wait log grows by the next batch's wait |
| TrendsMonitor.ProgressStep | trends_monitor.py:184-196 | one more batch keeps the loop's invariant (batches, accumulators, waits) |
| TrendsMonitor.ProgressDone | trends_monitor.py:184-196 | at the end, the batches taken are all the batches |
| TrendsMonitor.WaitAfter | trends_monitor.py:186-196 | `batch_interval + u` after a batch that went through and is not the last, no wait otherwise |
| TrendsMonitor.SweepBatches | trends_monitor.py:184-196 | the loop takes `KEYWORDS[i:i+size]` in order, processes each, and waits `interval + u` only after a successful batch that is not the last |
| TrendsMonitor.ReportBody | trends_monitor.py:201-221 | the report notice: the time range, the region (`Global` when empty), then total, successful and failed counts |
| TrendsMonitor.AlertItem | trends_monitor.py:244-245 | one alert as `<li>k: q (Growth: v)</li>` |
| TrendsMonitor.AlertBody | trends_monitor.py:231-246 | the alert notice: the query parameters, then every alert item with no separator, then `</ul>` |
| TrendsMonitor.ItemsAppend | trends_monitor.py:244-245 | the alert list of joined alerts is the two lists' items, joined |
| TrendsMonitor.AlertItemsOneLine | trends_monitor.py:244-246 | the items have no separator: with no line break in any keyword or query, the whole list is one line |
| TrendsMonitor.ProcessTrends | trends_monitor.py:173-262 | a zero batch size raises and only the error notice is sent; otherwise the batches, accumulators and waits are those of the sweep, the report is built from all kept results, and the report notice (total = `len(KEYWORDS)`, successful = `len(all_results)`) and the alert notice are sent when non-empty |
| TrendsMonitor.ScheduleTime | trends_monitor.py:267-268 | the configured hour, `:`, then the minutes padded to two digits |
| TrendsMonitor.ScheduleTimeParts | trends_monitor.py:267-268 | the time splits at `:` into two digit strings that read back as the hour and the minutes |
| TrendsMonitor.ScheduleTimeInjective | trends_monitor.py:267-268 | different hours or minutes give different schedule times |
| TrendsMonitor.StartupSleep | trends_monitor.py:275-280 | there is a wait only when `now.hour == hour` and `now.minute >= minutes`; it lasts until the same time tomorrow, between 1 second and a day |
| Notification.CloseAt | notification.py:182 | the `>` found is the first `<` or `>` after the start |
| Notification.TagAt | notification.py:182 | a tag is `<`, at least one character that is not `<`, then the nearest `>` |
| Notification.StripTags | notification.py:182 | deleting tags never lengthens the text |
| Notification.StripTagsSkip | notification.py:182 | text without `<` passes through tag deletion unchanged, wherever it stands |
| Notification.StripTagsTag | notification.py:182 | a tag `<t>` is deleted completely |
| Notification.HtmlToText | notification.py:177-183 | tags are deleted first, then `&nbsp;`, `&lt;` and `&gt;` are decoded, in that order |
| Notification.NoEntities | notification.py:183 | text without `&` is unchanged by the three replacements |
| Notification.HtmlToTextPlain | notification.py:182-183 | text with neither `<` nor `&` converts to itself |
| Notification.EscapedTagSurvives | notification.py:182-183 | entities are decoded after tags are gone: `&lt;t&gt;` comes out as `<t>`, while `<t>` itself is deleted |
| Notification.Classify | notification.py:97-117 | a line's kind by first match: ends with `:`, then the five summary labels in order, then a growth line (`:` and `Growth:`), else plain |
| Notification.FormatLine | notification.py:96-117 | the line raises exactly when it is a growth line with no `Growth:` after its first `:`; every other non-growth line gives one line, its marker then the line; a growth line gives two lines, the first starting `↗️ ` |
| Notification.LabelOnKeyword | notification.py:100-109 | a line `k:rest` starts with a summary label exactly when `k:` does |
| Notification.KeywordLineGrowth | notification.py:97-110 | an alert line whose keyword looks like no label reaches the growth branch |
| Notification.KeywordSplit | notification.py:112 | `split(':', 1)` of `k:rest` gives `k` and `rest` when `k` has no `:` |
| Notification.GrowthSplit | notification.py:113 | the value part of ` q (Growth: v)` is found after the item's own `Growth:` when the query has none |
| Notification.ValueStrip | notification.py:113 | `strip('() ')` of ` v)` gives back the number `v` |
| Notification.GrowthLineFormat | notification.py:110-115 | any growth line `k:a Growth:b`, with `k` free of `:` and the shown `Growth:` the first after the `:`, becomes `↗️ ` plus `k` stripped, then `   增长幅度: ` plus `b` with `(`, `)` and spaces trimmed from both ends; the text `a` is not emitted |
| Notification.AlertLineFormat | notification.py:110-115 | an alert item `k: q (Growth: v)` on its own line becomes `↗️ k` and `   增长幅度: v`; the query is dropped and the value is read back exactly |
| Notification.BodyLinesCount | notification.py:91-117 | with no raise, the body gives one line per kept non-growth line and two per growth line; blank lines give none |
| Notification.BodyLinesErr | notification.py:91-117 | the body formatting raises exactly when one of its lines raises |
| Notification.BodyLinesSticky | notification.py:91-117 | once a line raises, later lines do not change the outcome |
| Notification.RowLines | notification.py:133-134 | one bullet line per report row |
| Notification.Keywords | notification.py:124 | the keyword column holds each row's keyword, in row order |
| Notification.OccursOnce | notification.py:124 | a keyword of `unique()` occurs once in it |
| Notification.ListedAll | notification.py:124-134 | when every row's keyword is listed once, the blocks list every row exactly once |
| Notification.ReportListsEveryRow | notification.py:120-134 | grouping by the distinct keywords in first-appearance order, with a rising and a top block each, lists every report row exactly once |
| Notification.MessageHeader | notification.py:86-136 | the message opens with `📊 <subject>`, a newline and 30 `=` |
| Notification.MessageErr | notification.py:91-117 | the formatter raises exactly when some line of the converted body raises |
| Notification.MessageDone | notification.py:76-136 | the header, the formatted body lines and the report section, joined by newlines, are the message |
| Notification.AppendBlock | notification.py:131-134 | a non-empty block is its label followed by one bullet per row |
| Notification.AppendKeyword | notification.py:126-134 | a keyword's heading, then its rising block, then its top block, each only when it has rows |
| Notification.WeChatMessage | notification.py:76-136 | the header, the formatted body lines and the report section joined by `\n`, or the first body line's indexing error |
| Notification.FormatWeChatMessage | notification.py:76-136 | the loop's result is the message: the header, each stripped non-blank line formatted by first match, the report section per distinct keyword; or the indexing error of the first growth line that raises |
| Notification.NotificationManager.constructor | notification.py:12-15 | WeChat is logged in only when the channel includes WeChat and the login succeeded |
| Notification.NotificationManager.InitWeChat | notification.py:17-26 | the login flag is the login's outcome |
| Notification.NotificationManager.SendWeChat | notification.py:138-175 | a missing login is retried once; the send succeeds exactly when logged in, the message formats without raising, and delivery succeeds |
| Notification.NotificationManager.SendNotification | notification.py:28-41 | the result is the conjunction of the enabled channels; WeChat is still tried after an e-mail failure; with no channel enabled it is true |

## Left out

- HTTP, cookies and the trend provider (`get_google_nid`, `Trends().related_queries`): replaced by the `fetch` oracle.
- The retry decorator's exponential back-off with full jitter: each pause is a free non-negative parameter; only the ceiling of five attempts is modelled.
- SMTP (`_send_email` and the copy in `trends_monitor.py`): its outcome is the `emailSent` input.
- itchat (login, send, send_file, logout) and the `__del__` logout: login and delivery outcomes are inputs; non-CSV attachments are not sent.
- File and data-library I/O (`to_csv`, `read_csv`, `json.dump`, `os.rename`, `create_daily_directory`): the report is passed on as its rows, and the CSV round trip of the values is not modelled.
- Real sleeps and floating-point random draws: sleeps are integer parameters, logged as ghost values.
- RateLimit.RequestLimiter.AwaitAdmission: a check takes no time, and each re-check happens exactly when its sleep ends; the program's clock readings can only be later.
- QueryTrends.BatchGetQueries: the provider call and the NID request made before each attempt take no time, so the next keyword starts exactly one pause after the previous call; only the sleeps and `lag` advance the clock.
- The `schedule` library's daily trigger and its polling loop: only the start time and the start-up check are modelled.
- `print_related_queries`, `main`, argument parsing and logging.
- `wechat_utils.py`: it is not part of this model.
- TrendsMonitor.ProcessTrends: `fetched(b)` is an input for each batch and is not tied to the keywords of batch `b`.
- TrendsMonitor.ProcessTrends: an exception other than the zero batch size (for example from `create_daily_directory`) is not modelled.
- Notification.NotificationManager.SendWeChat: only the report rows reach the formatter; the CSV being unreadable is a `None` report.
- Notification.StripTags: the regular expression is modelled by the scan it performs, not by a regular-expression engine.
