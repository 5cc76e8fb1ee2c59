# Agent services: auto-improver, vitals monitor, HR agent

A Dafny model of the decision logic of three small HTTP agents.

**The R&D auto-improver** (`services/agents/rnd/auto_improver/main.py`) runs a grid search over one parameter of a code template.
- For every round and every value, it substitutes the value for `{param}` and submits the code to the orchestrator as an experiment.
- It reads a metric from the experiment's output (`METRIC: <number>`). When the output has none, it falls back to a sentiment score from the model server.
- It appends one record per trial to a shared `state`, and keeps the best record there under a strict "greater than" promotion rule.
- It pauses `delay_between_rounds` seconds after every trial. `time.sleep` refuses a negative delay (`ValueError`) and one that does not fit in a signed 64-bit count of nanoseconds, about ±9.22e9 seconds (`OverflowError`). Either way it raises after the first trial, which ends the job through its outer handler.
- `/start`, `/stop`, `/status` and `/history` read or change that `state`. `/stop` only clears the `running` flag, which the job checks before every round and every trial.

**The vitals monitor** (`services/agents/healthcare/vitals-monitor/main.py`) classifies a reading as low, medium or high with a fixed threshold table. It forwards an alert to the orchestrator unless the reading is low.

**The HR agent** (`services/agents/enterprise/hr-agent/main.py`) does three things:
- routes a request by its lower-cased type to one of four canned replies;
- asks the model server for the sentiment of the message;
- adds an escalation note exactly when that sentiment is `"negative"`.

Modules:
- `Wrappers`: `Option`.
- `Text`: the Python `str` behaviour the services use, namely whitespace as `\s` and `strip()` see it, `lower()`, `startswith()` and `replace()`.
- `Metric`: the extractor. The regular expression `METRIC:\s*([0-9.+-eE]+)` is modelled as written. Inside its brackets, `+-e` is the range `'+'..'e'`, so the class admits every character from `+` to `e`: besides the intended ones, for example `,`, `/`, `:`, `;`, `<`, `=`, `>`, `?`, `@`, `A`–`Z`, `[`, `\`, `]`, `^`, `_`, a backquote and `a`–`e`. A token such as `3.5,` is therefore captured whole and rejected by `float()`. `float()` is modelled on the decimal grammar it accepts.
- `ModelServer`: what a `/predict` call returns.
- `TrialSearch`: the pure part of the job. It covers the scorer, how one trial becomes a record and the promotion of `best`. It also gives the whole history a job leaves, as a function of the request and of a `World`. The `World` holds the orchestrator's answers, the model server's answers, the trial before which a `/stop` lands, and Python's `str()` of a value.
- `AutoImprover`: the shared `state` as a class `Service`. Its methods are the endpoints and the job's loops. The job method is proved to leave exactly the history and the best record that `TrialSearch` specifies.
- `VitalsMonitor`: `severity_for` and `send_vitals`.
- `HrAgent`: `get_sentiment`, the reply builders, the routing and `process_request`.

Network calls, the clock and uuids are inputs to the model:
- the orchestrator's answers (`Submission` and `Forward`);
- the model server's answers (`PredictReply`);
- the time stamps (`now`);
- the job id (`newId`).

Lower-casing maps only `A`–`Z`. Every use of `lower()` in these services is compared against an ASCII keyword: `hr`, `spo2`, `bp`, `leave`, `salary`, `onboarding`, `positive` and `negative`. The only non-ASCII character whose `lower()` is ASCII is U+212A (Kelvin sign, which becomes `k`), and no keyword contains `k`. U+0130 lowers to `i` followed by U+0307, which is not ASCII, so it never produces a keyword either. So each comparison has the same outcome as in Python.

## Model

| member | source | states |
|---|---|---|
| `Text.Strip` | services/agents/rnd/auto_improver/main.py:111 | `strip()` is `lstrip()` then `rstrip()`; whether it is empty is decided by `StripEmptyIffBlank` |
| `Text.TrimStart` | services/agents/rnd/auto_improver/main.py:111 | the result is a suffix of the input; everything dropped is whitespace; and the result does not start with whitespace |
| `Text.TrimEnd` | services/agents/rnd/auto_improver/main.py:111 | the result is a prefix of the input; everything dropped is whitespace; and the result does not end with whitespace |
| `Text.StripEmptyIffBlank` | services/agents/rnd/auto_improver/main.py:111-112 | `stdout.strip()` is empty exactly when every character of the output is whitespace |
| `Text.ReplaceAll` | services/agents/rnd/auto_improver/main.py:89 | `str.replace` with a non-empty pattern, scanning left to right without overlaps; its behaviour is stated by the four lemmas below |
| `Text.ReplaceBySelf` | services/agents/rnd/auto_improver/main.py:89 | for every text, replacing a pattern by itself gives the text back |
| `Text.ReplaceAbsent` | services/agents/rnd/auto_improver/main.py:89 | `replace` leaves a text without an occurrence of the pattern unchanged |
| `Text.ReplaceAfterPlainPrefix` | services/agents/rnd/auto_improver/main.py:89 | when the prefix cannot start an occurrence, `replace` keeps it, replaces the occurrence and goes on with the rest |
| `Text.ReplaceSkipsChar` | services/agents/rnd/auto_improver/main.py:89 | a first character that cannot start an occurrence of the pattern is kept by `replace` |
| `Text.Lower` | services/agents/healthcare/vitals-monitor/main.py:24 | `lower()` keeps the length and leaves no capital `A`–`Z` |
| `Text.LowerIdempotent` | services/agents/healthcare/vitals-monitor/main.py:24 | lower-casing twice is the same as lower-casing once |
| `Metric.SpaceNotInClass` | services/agents/rnd/auto_improver/main.py:33 | no whitespace character is in the token class, so `\s*` never has to give characters back |
| `Metric.SkipSpaces` | services/agents/rnd/auto_improver/main.py:33 | `\s*` consumes the maximal run of whitespace |
| `Metric.RunEnd` | services/agents/rnd/auto_improver/main.py:33 | `[...]+` consumes the maximal run of class characters |
| `Metric.FirstMatch` | services/agents/rnd/auto_improver/main.py:38 | `search` finds a position where the pattern matches and no earlier one, or reports that none matches anywhere |
| `Metric.ParseMetric` | services/agents/rnd/auto_improver/main.py:35-44 | `parse_metric_from_stdout`: `None` for empty output or no match, else `float()` of the first match's group; its behaviour is stated by the lemmas below |
| `Metric.Token` | services/agents/rnd/auto_improver/main.py:42 | `m.group(1)` is a non-empty run of class characters, and the run is maximal by `RunEnd` |
| `Metric.ParseFloat` | services/agents/rnd/auto_improver/main.py:42 | `float()` on a sign, a mantissa and an optional exponent, `None` where it raises; stated by `ParseFloatNegated`, `ParseFloatOfPrintedWhole`, `StrayCharNotAFloat` and the examples |
| `Metric.ParseMetricOfMarkedToken` | services/agents/rnd/auto_improver/main.py:35-44 | an output that begins with the marker, a space and a class token followed by a non-class character yields `float()` of exactly that token |
| `Metric.ParseMetricOfPrintedWhole` | services/agents/rnd/auto_improver/main.py:35-44 | a line `METRIC: <digits of n>.0` followed by a non-class character or the end is read back as `n`; this is how `str()` prints a whole float below 10^16 |
| `Metric.ParseFloatOfPrintedWhole` | services/agents/rnd/auto_improver/main.py:42 | `float("<digits of n>.0")` is `n` |
| `Metric.ParseFloatNegated` | services/agents/rnd/auto_improver/main.py:42 | a leading `-` keeps a token parseable exactly when it was, and negates its value |
| `Metric.MantissaChars` | services/agents/rnd/auto_improver/main.py:42 | a spelling `float()` reads without exponent or sign holds only digits, `_` and `.` |
| `Metric.StrayCharNotAFloat` | services/agents/rnd/auto_improver/main.py:41-44 | a digit-led token without an exponent that holds any other character is rejected by `float()` |
| `Metric.NoMetricWithoutM` | services/agents/rnd/auto_improver/main.py:36-40 | an output with no `M` in it has no metric |
| `Metric.NoMarkerNoMetric` | services/agents/rnd/auto_improver/main.py:38-40 | an output without the marker has no metric |
| `Metric.ParsesWellFormedMetric` | services/agents/rnd/auto_improver/main.py:35-44 | `METRIC: 3.5` yields 3.5 |
| `Metric.DecimalIsAFloat` | services/agents/rnd/auto_improver/main.py:42 | `float("3.5")` is 3.5 |
| `Metric.LettersAreNotAFloat` | services/agents/rnd/auto_improver/main.py:41-44 | `float("abc")` raises, so there is no metric |
| `Metric.LetterTokenRejected` | services/agents/rnd/auto_improver/main.py:38-44 | letters are captured by the class, but `float()` rejects them and the answer is "no metric" |
| `Metric.TrailingCommaRejected` | services/agents/rnd/auto_improver/main.py:33 | the class range admits `,`, so `METRIC: 3.5,` captures `3.5,` and yields no metric |
| `Metric.LaterMarkerIgnored` | services/agents/rnd/auto_improver/main.py:38-44 | only the leftmost match is read: a bad first token hides a good later one |
| `TrialSearch.ModelScore` | services/agents/rnd/auto_improver/main.py:52-73 | the fallback score is always 1.0, 0.0 or -1.0, and it is 0.0 for empty text |
| `TrialSearch.ModelScoreOfLabel` | services/agents/rnd/auto_improver/main.py:65-70 | for non-empty text, the score is 1.0 exactly for a label that lower-cases to `positive` and -1.0 exactly for one that lower-cases to `negative` |
| `TrialSearch.ModelScoreNeutral` | services/agents/rnd/auto_improver/main.py:60-73 | a failed call and a reply without a label both score 0.0 |
| `TrialSearch.ScoringText` | services/agents/rnd/auto_improver/main.py:109-114 | the text handed to the scorer; which one is stated by `ScoringTextChoice` |
| `TrialSearch.ScoringTextChoice` | services/agents/rnd/auto_improver/main.py:109-115 | the scorer sees the trial's code exactly when the output is blank, and otherwise the non-empty stripped output |
| `TrialSearch.TrialMetric` | services/agents/rnd/auto_improver/main.py:105-115 | the metric of a completed trial; its source is stated by `TrialMetricSource` |
| `TrialSearch.TrialMetricSource` | services/agents/rnd/auto_improver/main.py:105-115 | a printed metric wins; without one, the metric is the scorer's -1.0, 0.0 or 1.0 |
| `TrialSearch.TrialCode` | services/agents/rnd/auto_improver/main.py:89 | the trial's code, `code_template.replace("{param}", str(v))`; stated for the example by `ExampleTrialCode` |
| `TrialSearch.RecordFor` | services/agents/rnd/auto_improver/main.py:91-125 | a trial is recorded as completed exactly when its submission came back, and as an abort exactly when reading the reply raised; a completed record always carries a metric; other records keep the trial's round and value |
| `TrialSearch.Promote` | services/agents/rnd/auto_improver/main.py:127-129 | the strict-`>` promotion after one record; stated by `BestOfTwo` and `BestOfAppend` |
| `TrialSearch.BestOf` | services/agents/rnd/auto_improver/main.py:127-129 | `best` after a history; stated by `BestIsSentinelIffNoMetric` and `BestIsEarliestMaximum` |
| `TrialSearch.BestIsSentinelIffNoMetric` | services/agents/rnd/auto_improver/main.py:127-129 | `best` keeps its `-inf` sentinel exactly when no record has a metric |
| `TrialSearch.BestIsEarliestMaximum` | services/agents/rnd/auto_improver/main.py:127-129 | otherwise `best` is built from a record whose metric no record beats and which every earlier record is strictly below: the earliest maximum |
| `TrialSearch.BestOfAppend` | services/agents/rnd/auto_improver/main.py:127-129 | `best` is updated record by record as the history grows |
| `TrialSearch.BestOfTwo` | services/agents/rnd/auto_improver/main.py:127-129 | of two records with metrics, a strictly greater second one becomes the best |
| `TrialSearch.RoundsOrder` | services/agents/rnd/auto_improver/main.py:82-86 | the grid has `iterations × len(values)` trials in round-major order: trial `t` is round `t / n + 1`, value `t % n` |
| `TrialSearch.CellAtPosition` | services/agents/rnd/auto_improver/main.py:82-86 | the trial the nested loops reach at round `it`, position `j` is the grid's entry at that index |
| `TrialSearch.RoundBounds` | services/agents/rnd/auto_improver/main.py:82-86 | round `it` adds one trial per parameter value, and ends within the grid |
| `TrialSearch.Planned` | services/agents/rnd/auto_improver/main.py:82-88 | the trials the cancellation checks let through: the grid, cut at the trial a `/stop` precedes; used by `LoopExit` and `JobRunsAllPlanned` |
| `TrialSearch.FirstAbort` | services/agents/rnd/auto_improver/main.py:91-136 | the index of the first aborting reply among the first `n`, or `n` when there is none |
| `TrialSearch.SleepFailure` | services/agents/rnd/auto_improver/main.py:98 | `time.sleep(d)` succeeds exactly for 0 <= d < 2^63 ns; inside the 64-bit range a negative `d` gives the `ValueError`, outside it the `OverflowError` |
| `TrialSearch.Attempted` | services/agents/rnd/auto_improver/main.py:82-138 | the job never attempts more trials than the cancellation checks let through, nor more than the grid holds, and only one when the pause after it raises (negative or too large) |
| `TrialSearch.JobHistory` | services/agents/rnd/auto_improver/main.py:75-138 | the history a finished job leaves; stated by `JobHistoryShape`, `JobRunsAllPlanned`, `JobAbortsAtFirstMalformed` and `JobEndsAtSleep`, and reached by `AutoImproveJob` |
| `TrialSearch.HistoryPrefixAt` | services/agents/rnd/auto_improver/main.py:118-125 | record `i` of the history is the record of trial `i` |
| `TrialSearch.HistoryPrefixGrows` | services/agents/rnd/auto_improver/main.py:117-125 | appending trial `t`'s record to the history of the first `t` trials gives the history of the first `t + 1` |
| `TrialSearch.JobHistoryShape` | services/agents/rnd/auto_improver/main.py:82-138 | the finished history has at most `iterations × len(values)` records when the pause does not raise, and at most two when it does; each non-abort record belongs to its round and value in grid order; only the last record can be an abort; completed records carry a metric |
| `TrialSearch.JobRunsAllPlanned` | services/agents/rnd/auto_improver/main.py:82-99 | when the pause between trials does not raise (0 <= delay < 2^63 ns), submission failures never end the job: without an aborting reply it records every trial before the stop, or the whole grid when no stop arrives |
| `TrialSearch.JobEndsAtSleep` | services/agents/rnd/auto_improver/main.py:91-138 | when `time.sleep` refuses the delay, it raises after the first trial's record, whether that submission failed (98) or completed (131): the history is that record followed by the `ValueError` or `OverflowError` that `SleepFailure` gives |
| `TrialSearch.JobAbortsAtFirstMalformed` | services/agents/rnd/auto_improver/main.py:134-136 | a reply that raises, reached before any pause has raised, ends the history with its error, and nothing after it is attempted |
| `TrialSearch.JobEndsAfter` | services/agents/rnd/auto_improver/main.py:82-88 | a job that passed every permitted check without an abort, the pause never raising, leaves exactly the records of those trials |
| `TrialSearch.JobEndsAtAbort` | services/agents/rnd/auto_improver/main.py:134-136 | a job whose trial `t` aborts, no pause having raised before it, leaves the first `t` records followed by the abort |
| `TrialSearch.ExampleTrialCode` | services/agents/rnd/auto_improver/main.py:89 | the example template `print('METRIC: {param}')` becomes `print('METRIC: <str(v)>')` for each value, the value's spelling inside the string literal |
| `TrialSearch.ExampleRun` | services/agents/rnd/auto_improver/main.py:75-131 | values 1.0 and 2.0 printed as metrics give two completed records, and the 2.0 trial is the best |
| `TrialSearch.ExampleHistory` | services/agents/rnd/auto_improver/main.py:82-125 | the history of that run, record by record |
| `TrialSearch.ExampleTwoTrials` | services/agents/rnd/auto_improver/main.py:82-125 | two submitted trials that print metrics give two completed records carrying those metrics |
| `TrialSearch.PrintedRecord` | services/agents/rnd/auto_improver/main.py:101-125 | a trial that prints a metric records it with its output and its error text (empty when missing), whatever the scorer would say |
| `TrialSearch.LatestRecordsAreTail` | services/agents/rnd/auto_improver/main.py:166-169 | `history[-200:]` holds the last `min(200, len)` records, in order |
| `AutoImprover.Service.constructor` | services/agents/rnd/auto_improver/main.py:16-21 | the initial state is not running, has no job, has the sentinel best and an empty history |
| `AutoImprover.Service.Start` | services/agents/rnd/auto_improver/main.py:140-148 | `/start` refuses while a job runs and otherwise reports the new job id; it changes no state |
| `AutoImprover.Service.Stop` | services/agents/rnd/auto_improver/main.py:150-155 | `/stop` reports whether a job was running, leaves `running` false and changes nothing else |
| `AutoImprover.Service.Status` | services/agents/rnd/auto_improver/main.py:157-164 | `/status` reports the flag, the job id, the best record and the history length |
| `AutoImprover.Service.History` | services/agents/rnd/auto_improver/main.py:166-169 | `/history` returns the last `min(200, len)` records as a suffix of the history |
| `AutoImprover.Service.AutoImproveJob` | services/agents/rnd/auto_improver/main.py:75-138 | the job ends not running and without a job id; it leaves exactly the specified history, including the abort of a pause that raises, and a best that is the promotion over that history |
| `AutoImprover.Service.RunRounds` | services/agents/rnd/auto_improver/main.py:82-138 | the outer loop, from an empty history, ends not running and without a job id, with exactly the specified history (reply aborts and pause aborts included) and its promotion as best |
| `AutoImprover.LoopExit` | services/agents/rnd/auto_improver/main.py:82-88 | once the rounds run out or a `/stop` is seen, the trials done are exactly those the cancellation checks let through |
| `AutoImprover.Service.RunRound` | services/agents/rnd/auto_improver/main.py:86-131 | one round either aborts the job, on a reply that raises or a pause that raises, with the specified end state; or leaves the history and best of the trials done with every earlier round complete; or stops at the trial a `/stop` preceded |
| `AutoImprover.Service.RunTrial` | services/agents/rnd/auto_improver/main.py:86-131 | one trial aborts the job exactly when its reply raises or `time.sleep` refuses the delay after it, leaving the specified end state; otherwise it appends that trial's record and keeps `best` equal to the promotion over the history |
| `AutoImprover.Service.AppendRecord` | services/agents/rnd/auto_improver/main.py:117-129 | appending a trial's record and promoting on a strictly greater metric keeps `best` the promotion over the grown history |
| `AutoImprover.Service.Abort` | services/agents/rnd/auto_improver/main.py:134-138 | the outer handler ends the job with the history of the first `t` trials followed by the error, not running and without a job id |
| `AutoImprover.Service.SleepAbort` | services/agents/rnd/auto_improver/main.py:131-138 | when the pause after the first trial raises, the outer handler appends that error (the `ValueError` or the `OverflowError`), clears `running` and `job_id`, and leaves the specified history and its promotion as best |
| `AutoImprover.Service.StartAndRun` | services/agents/rnd/auto_improver/main.py:140-148 | a refused start changes nothing; an accepted one runs the job to the specified end state, pause aborts included |
| `AutoImprover.CompletedTrial` | services/agents/rnd/auto_improver/main.py:101-125 | a completed trial's record, built step by step, is the one its specification gives |
| `AutoImprover.StopTwice` | services/agents/rnd/auto_improver/main.py:150-155 | a second `/stop` always answers `not_running`, and stopping twice changes nothing but the flag |
| `VitalsMonitor.Severity.Label` | services/agents/healthcare/vitals-monitor/main.py:20-44 | the severity label is always `low`, `medium` or `high` |
| `VitalsMonitor.SeverityFor` | services/agents/healthcare/vitals-monitor/main.py:20-44 | heart rate is high exactly below 40 or above 120, and low exactly in [55, 100]. SpO2 is high exactly below 88, and low exactly from 94 up. A `bp…` metric is high exactly above 180 or below 80, and low exactly in [90, 140]. Any other metric is medium |
| `VitalsMonitor.SeverityIgnoresCase` | services/agents/healthcare/vitals-monitor/main.py:24 | the metric name is matched without regard to case |
| `VitalsMonitor.Spo2SeverityFalls` | services/agents/healthcare/vitals-monitor/main.py:31-36 | a lower oxygen saturation is never classified as less severe |
| `VitalsMonitor.AlertTime` | services/agents/healthcare/vitals-monitor/main.py:59 | the alert carries the device's time stamp, or the clock's when that is missing or empty |
| `VitalsMonitor.AlertFor` | services/agents/healthcare/vitals-monitor/main.py:52-61 | an alert is built exactly for a medium or high reading; it carries the reading's patient, metric and value and its computed severity |
| `VitalsMonitor.SendVitals` | services/agents/healthcare/vitals-monitor/main.py:46-69 | a low reading is acknowledged with severity `low` and not forwarded. Any other reading is forwarded: the orchestrator's body comes back on success, and a 502 with the error comes back on failure |
| `VitalsMonitor.LowReadingNeedsNoOrchestrator` | services/agents/healthcare/vitals-monitor/main.py:68-69 | a low reading's answer does not depend on the orchestrator |
| `VitalsMonitor.UnknownMetricAlerts` | services/agents/healthcare/vitals-monitor/main.py:44 | an unrecognised metric always raises a medium alert |
| `HrAgent.GetSentiment` | services/agents/enterprise/hr-agent/main.py:22-28 | the sentiment is the model's prediction, or `unknown` when the reply has none or the call failed |
| `HrAgent.Route` | services/agents/enterprise/hr-agent/main.py:59-69 | the lower-cased type `leave`, `salary` or `onboarding` selects its own handler, and any other type selects the general one |
| `HrAgent.RouteIgnoresCase` | services/agents/enterprise/hr-agent/main.py:59-65 | routing does not depend on the case of the request type |
| `HrAgent.LeaveReply` | services/agents/enterprise/hr-agent/main.py:34-35 | the leave reply; stated by `RepliesNameTheEmployee` and `ReplyIdentifiesHandler` |
| `HrAgent.SalaryReply` | services/agents/enterprise/hr-agent/main.py:38-39 | the salary reply; stated by `FixedReplies` and `ReplyIdentifiesHandler` |
| `HrAgent.OnboardingReply` | services/agents/enterprise/hr-agent/main.py:42-43 | the onboarding reply; stated by `RepliesNameTheEmployee` and `ReplyIdentifiesHandler` |
| `HrAgent.GeneralReply` | services/agents/enterprise/hr-agent/main.py:46-47 | the general reply; stated by `FixedReplies` and `ReplyIdentifiesHandler` |
| `HrAgent.ReplyOf` | services/agents/enterprise/hr-agent/main.py:59-69 | the reply of the routed handler; stated by `ReplyIdentifiesHandler` and `ProcessRequest` |
| `HrAgent.RepliesNameTheEmployee` | services/agents/enterprise/hr-agent/main.py:34-43 | leave and onboarding replies embed the employee id: two such replies are equal exactly when the ids are |
| `HrAgent.FixedReplies` | services/agents/enterprise/hr-agent/main.py:38-47 | the salary and general replies do not depend on the request |
| `HrAgent.ReplyIdentifiesHandler` | services/agents/enterprise/hr-agent/main.py:34-47 | the four replies never coincide, so the reply shows which handler ran |
| `HrAgent.ProcessRequest` | services/agents/enterprise/hr-agent/main.py:53-83 | the response is always `processed` by `HR`; it echoes the sentiment; its reply is the routed handler's; and it carries the escalation note exactly when the sentiment is `negative` |
| `HrAgent.NoEscalationWithoutModel` | services/agents/enterprise/hr-agent/main.py:22-28 | when the model server fails, the sentiment is `unknown` and nothing is escalated |
| `HrAgent.EscalationIsCaseSensitive` | services/agents/enterprise/hr-agent/main.py:73-74 | a `Negative` label is echoed but not escalated |
| `HrAgent.ResponseIgnoresSentiment` | services/agents/enterprise/hr-agent/main.py:56-69 | the reply text does not depend on the sentiment |

## Left out

- HTTP transport: every `requests.post`, `raise_for_status` and `.json()` is an input to the model. These inputs are the orchestrator's answers in `Submission` and `Forward`, and the model server's answers in `PredictReply`. Request timeouts fold into the failure cases.
- FastAPI validation of request bodies: the models take already-validated records.
- The job's thread: the job runs as one sequential call. A concurrent `/stop` is the input `World.stopBefore`, taken at the first cancellation check it precedes. Two races are not modelled:
  - `/start` and the thread setting `running`, which is not synchronised;
  - a `/stop` followed by a `/start` while a trial is in flight. The second job's thread sets `running` back to true, so the first job's next check passes, and both threads append to the one `history`.
- `time.sleep(delay_between_rounds)`: the pause itself is not modelled, because it does not change the state. Its errors are modelled by `SleepFailure`: the `OverflowError` outside [-2^63, 2^63) nanoseconds and the `ValueError` on a negative length; either ends the job after the first trial. The boundary is taken on the exact product delay × 10^9, without the binary rounding of that product, and the overflow message is the one CPython 3.12 and earlier print (later versions spell the type name differently). A NaN or infinite delay, on which `time.sleep` also raises, is outside the real-valued request.
- `uuid4` job ids and the experiment description string `autoimprove_job=… iter=… try=…`: the id is an input, and the description is only sent to the orchestrator.
- Python's `str()` of a float in the code template: it is the input `World.show`.
- Metric.ParseFloat: models `float()` on finite decimal spellings with exact rational values. It returns no value for `inf`/`nan` spellings. Binary rounding, overflow to infinity and NaN comparisons in the promotion rule are floating-point matters outside the model.
- Non-string JSON values where a string is expected are not modelled. This covers a `null` or numeric `prediction`, which would make `model_score` score 0.0 through its handler, and other non-string fields. The model server's reply is a label or nothing.
- A reply whose `experiment_result` cannot be read raises inside the job. It is modelled as `Malformed`, which takes the job's outer handler, without the exception's text beyond an error string.
- SeverityFor and SendVitals: a reading's value is a real number, so a NaN `value` is not modelled. With NaN, every comparison in `severity_for` is false, so a NaN heart rate, SpO2 or blood pressure would be classified `low` and not forwarded.
- Lower-casing outside ASCII, as argued above: it cannot change the outcome of any comparison in these services.
- The timestamps (`strftime` in the HR agent and the vitals monitor) are inputs, not formatted in the model.
- The orchestrator, the experiment planner, the dashboard and the model server itself are not part of this model.
