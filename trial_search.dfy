/**
 * The pure part of the auto-improver (services/agents/rnd/auto_improver/main.py):
 * the fallback scorer `model_score`, how one trial becomes a history record,
 * the rule that promotes `best`, and the whole history a job leaves behind as a
 * function of its request and of what the outside world answered.
 */
module TrialSearch {
  import opened Wrappers
  import opened Text
  import opened Metric
  import opened ModelServer

  /** The token a code template carries in place of the parameter value. */
  const ParamToken: string := "{param}"

  /** How many records `/history` hands out. */
  const HistoryWindow: nat := 200

  /** `AutoImproveRequest` */
  datatype Request = Request(
    codeTemplate: string,
    paramName: string,
    paramValues: seq<real>,
    iterations: int,
    delayBetweenRounds: real)

  /** One entry of `state["history"]`. */
  datatype Record =
    /** `{iter, param, metric: None, error}`: the submission raised. */
    | SubmitError(iter: nat, param: real, error: string)
    /** `{iter, param, metric, stdout, stderr}`: the experiment came back. */
    | Completed(iter: nat, param: real, metric: Option<real>, stdout: string, stderr: string)
    /** `{error}`: the job's outer handler caught an exception and the job ended. */
    | Aborted(error: string)

  /** `state["best"]`; `Sentinel` is `{param: None, metric: -inf, stdout: None}`. */
  datatype Best = Sentinel | Champion(param: real, metric: real, stdout: string)

  /** What the orchestrator's `/run_experiment` did with one submission. */
  datatype Submission =
    /** `submit_experiment_via_orchestrator` raised (transport error, non-2xx status, body not JSON). */
    | SubmitFailed(error: string)
    /** The experiment result; a missing, null or empty output is `None`. */
    | Submitted(stdout: Option<string>, stderr: Option<string>)
    /** A reply whose reading raises inside the loop body (for example a body that is not an object). */
    | Malformed(error: string)

  /**
   * Everything the job cannot decide itself, one entry per trial in order:
   * the orchestrator's answer, the model server's answer to the fallback
   * scorer, the trial before whose cancellation check a `/stop` lands, and
   * Python's `str()` of a parameter value.
   */
  datatype World = World(
    submissions: seq<Submission>,
    replies: seq<PredictReply>,
    stopBefore: Option<nat>,
    show: real -> string)

  /** One point of the grid: a 1-based round and a parameter value. */
  datatype Cell = Cell(iter: nat, param: real)

  // ----- the fallback scorer -----

  /** `model_score(text)`, given the model server's reply. */
  function ModelScore(text: string, reply: PredictReply): (score: real)
    ensures score == 1.0 || score == 0.0 || score == -1.0
    ensures text == [] ==> score == 0.0
  {
    if text == [] then 0.0
    else match reply
      case PredictFailed => 0.0
      case Prediction(found) =>
        var pred := Lower(found.GetOr(""));
        if pred == "positive" then 1.0
        else if pred == "negative" then -1.0
        else 0.0
  }

  /** Non-empty text scores 1.0 exactly for a "positive" label and -1.0 exactly for a "negative" one, in any case. */
  lemma ModelScoreOfLabel(text: string, name: string)
    requires text != []
    ensures ModelScore(text, Prediction(Some(name))) == 1.0 <==> Lower(name) == "positive"
    ensures ModelScore(text, Prediction(Some(name))) == -1.0 <==> Lower(name) == "negative"
  {
  }

  /** A failed call and a reply without a label both score neutral. */
  lemma ModelScoreNeutral(text: string)
    ensures ModelScore(text, PredictFailed) == 0.0
    ensures ModelScore(text, Prediction(None)) == 0.0
  {
    assert Lower("") == "";
  }

  // ----- one trial -----

  /** The text handed to the fallback scorer: the stripped output, or the trial's code when that is empty. */
  function ScoringText(stdout: string, code: string): string {
    var candidate := Strip(stdout);
    if candidate == [] then code else candidate
  }

  /** The scorer sees the trial's code exactly when the output is blank, and the stripped output otherwise. */
  lemma ScoringTextChoice(stdout: string, code: string)
    ensures (forall i :: 0 <= i < |stdout| ==> IsSpace(stdout[i])) ==> ScoringText(stdout, code) == code
    ensures (exists i :: 0 <= i < |stdout| && !IsSpace(stdout[i])) ==>
              ScoringText(stdout, code) == Strip(stdout) != []
  {
    StripEmptyIffBlank(stdout);
  }

  /** The metric of a completed trial: the parsed one, or the fallback score. */
  function TrialMetric(stdout: string, code: string, reply: PredictReply): real {
    match ParseMetric(stdout)
    case Some(m) => m
    case None => ModelScore(ScoringText(stdout, code), reply)
  }

  /** A printed metric wins; without one the result is the scorer's -1.0, 0.0 or 1.0. */
  lemma TrialMetricSource(stdout: string, code: string, reply: PredictReply)
    ensures ParseMetric(stdout).Some? ==> TrialMetric(stdout, code, reply) == ParseMetric(stdout).value
    ensures ParseMetric(stdout).None? ==>
              TrialMetric(stdout, code, reply) in {-1.0, 0.0, 1.0}
  {
  }

  /** The code of the trial for value `v`: every `{param}` replaced by `str(v)`. */
  function TrialCode(req: Request, w: World, v: real): string {
    ReplaceAll(req.codeTemplate, ParamToken, w.show(v))
  }

  /** The record one trial appends, from the answers it got. */
  function RecordFor(c: Cell, code: string, sub: Submission, reply: PredictReply): (r: Record)
    ensures r.Completed? <==> sub.Submitted?
    ensures r.Completed? ==> r.metric.Some?
    ensures r.Aborted? <==> sub.Malformed?
    ensures !r.Aborted? ==> r.iter == c.iter && r.param == c.param
  {
    match sub
    case SubmitFailed(e) => SubmitError(c.iter, c.param, e)
    case Malformed(e) => Aborted(e)
    case Submitted(out, err) =>
      var stdout := out.GetOr("");
      Completed(c.iter, c.param, Some(TrialMetric(stdout, code, reply)), stdout, err.GetOr(""))
  }

  // ----- the best record -----

  /** The metric a record carries, if any. */
  function MetricOf(r: Record): Option<real> {
    if r.Completed? then r.metric else None
  }

  function ChampionOf(r: Record): Best
    requires MetricOf(r).Some?
  {
    Champion(r.param, r.metric.value, r.stdout)
  }

  /** The update of `best` after a record: promotion only on a strictly greater metric. */
  function Promote(b: Best, r: Record): Best {
    match MetricOf(r)
    case None => b
    case Some(m) => if b.Sentinel? || m > b.metric then ChampionOf(r) else b
  }

  /** `best` after the records of `h`, starting from the sentinel. */
  function BestOf(h: seq<Record>): Best {
    if h == [] then Sentinel else Promote(BestOf(h[..|h| - 1]), h[|h| - 1])
  }

  /** Record `i` has the largest metric of `h`, and every earlier metric is strictly smaller. */
  ghost predicate Leads(h: seq<Record>, i: int) {
    && 0 <= i < |h|
    && MetricOf(h[i]).Some?
    && (forall j :: 0 <= j < |h| && MetricOf(h[j]).Some? ==> MetricOf(h[j]).value <= MetricOf(h[i]).value)
    && (forall j :: 0 <= j < i && MetricOf(h[j]).Some? ==> MetricOf(h[j]).value < MetricOf(h[i]).value)
  }

  /** `best` is the sentinel exactly when no record has a metric. */
  lemma {:induction false} BestIsSentinelIffNoMetric(h: seq<Record>)
    ensures BestOf(h).Sentinel? <==> forall i :: 0 <= i < |h| ==> MetricOf(h[i]).None?
  {
    if h != [] {
      var p := h[..|h| - 1];
      BestIsSentinelIffNoMetric(p);
      assert forall j :: 0 <= j < |p| ==> h[j] == p[j];
    }
  }

  /**
   * Otherwise `best` is built from the earliest record with the maximum
   * metric: no record beats it, and every record before it is strictly lower.
   */
  lemma {:induction false} BestIsEarliestMaximum(h: seq<Record>)
    ensures BestOf(h).Champion? ==> exists i :: Leads(h, i) && BestOf(h) == ChampionOf(h[i])
  {
    if h != [] {
      var p, r := h[..|h| - 1], h[|h| - 1];
      var n := |h| - 1;
      BestIsSentinelIffNoMetric(p);
      BestIsEarliestMaximum(p);
      assert forall j :: 0 <= j < n ==> h[j] == p[j];
      if BestOf(p).Sentinel? {
        if MetricOf(r).Some? {
          LeaderAtEnd(h);
        }
      } else {
        var i :| Leads(p, i) && BestOf(p) == ChampionOf(p[i]);
        if MetricOf(r).Some? && MetricOf(r).value > BestOf(p).metric {
          LeaderAtEnd(h);
        } else {
          LeaderKept(h, i);
        }
      }
    }
  }

  /** The last record leads when its metric beats every earlier one. */
  lemma LeaderAtEnd(h: seq<Record>)
    requires h != [] && MetricOf(h[|h| - 1]).Some?
    requires forall j :: 0 <= j < |h| - 1 && MetricOf(h[j]).Some? ==>
               MetricOf(h[j]).value < MetricOf(h[|h| - 1]).value
    ensures Leads(h, |h| - 1)
  {
  }

  /** An earlier leader keeps the lead when the new record has no metric or a metric no greater. */
  lemma LeaderKept(h: seq<Record>, i: int)
    requires h != [] && Leads(h[..|h| - 1], i)
    requires MetricOf(h[|h| - 1]).Some? ==> MetricOf(h[|h| - 1]).value <= MetricOf(h[i]).value
    ensures Leads(h, i)
  {
    var p := h[..|h| - 1];
    assert forall j :: 0 <= j < |p| ==> h[j] == p[j];
  }

  // ----- the grid and the job's history -----

  /** The trials of round `it`, in the order of the parameter list. */
  function Row(values: seq<real>, it: nat): (row: seq<Cell>)
    ensures |row| == |values|
  {
    seq(|values|, j requires 0 <= j < |values| => Cell(it, values[j]))
  }

  /** The trials of rounds 1..k, round-major. */
  function Rounds(values: seq<real>, k: nat): seq<Cell> {
    if k == 0 then [] else Rounds(values, k - 1) + Row(values, k)
  }

  /** `range(1, iterations + 1)` has this many rounds. */
  function RoundCount(req: Request): nat {
    if req.iterations > 0 then req.iterations else 0
  }

  /** Every trial the job may run, in the order it runs them. */
  function Cells(req: Request): seq<Cell> {
    Rounds(req.paramValues, RoundCount(req))
  }

  function TrialCount(req: Request): nat {
    |Cells(req)|
  }

  /** The grid has `iterations × len(param_values)` trials, round-major: trial `t` is round `t / n + 1`, value `t % n`. */
  lemma {:induction false} RoundsOrder(values: seq<real>, k: nat)
    ensures |Rounds(values, k)| == k * |values|
    ensures forall t :: 0 <= t < |Rounds(values, k)| ==>
              Rounds(values, k)[t] == Cell(t / |values| + 1, values[t % |values|])
  {
    if k > 0 {
      RoundsOrder(values, k - 1);
      var n := |values|;
      var prev := Rounds(values, k - 1);
      assert |prev| == (k - 1) * n;
      forall t | 0 <= t < |Rounds(values, k)|
        ensures Rounds(values, k)[t] == Cell(t / n + 1, values[t % n])
      {
        if t >= |prev| {
          var j := t - |prev|;
          DivModOfRow(t, n, k - 1, j);
        }
      }
    }
  }

  /** Euclidean division of `q * n + j` by `n` for `0 <= j < n`. */
  lemma DivModOfRow(t: int, n: int, q: int, j: int)
    requires 0 <= j < n && t == q * n + j
    ensures t / n == q && t % n == j
  {
    var d := t / n - q;
    assert n * d == j - t % n;
    if d > 0 {
      AtLeastOnce(n, d);
    } else if d < 0 {
      AtLeastOnce(n, -d);
    }
  }

  lemma {:induction false} AtLeastOnce(n: int, d: int)
    requires n > 0 && d >= 1
    ensures n * d >= n
  {
    if d > 1 {
      AtLeastOnce(n, d - 1);
      assert n * d == n * (d - 1) + n;
    }
  }

  /** Rounds of a longer run start with the rounds of a shorter one. */
  lemma {:induction false} RoundsPrefix(values: seq<real>, k: nat, m: nat)
    requires k <= m
    ensures |Rounds(values, k)| <= |Rounds(values, m)|
    ensures Rounds(values, k) == Rounds(values, m)[..|Rounds(values, k)|]
    decreases m - k
  {
    if k < m {
      RoundsPrefix(values, k, m - 1);
    }
  }

  /** Round `it` adds one trial per value, and it ends within the grid. */
  lemma RoundBounds(req: Request, it: nat)
    requires 1 <= it <= RoundCount(req)
    ensures |Rounds(req.paramValues, it)| == |Rounds(req.paramValues, it - 1)| + |req.paramValues|
    ensures |Rounds(req.paramValues, it)| <= TrialCount(req)
  {
    RoundsPrefix(req.paramValues, it, RoundCount(req));
  }

  /** The cell that round `it`, position `j` reaches is the one the grid lists at that point. */
  lemma CellAtPosition(req: Request, it: nat, j: nat)
    requires 1 <= it <= RoundCount(req) && j < |req.paramValues|
    ensures |Rounds(req.paramValues, it - 1)| + j < TrialCount(req)
    ensures Cells(req)[|Rounds(req.paramValues, it - 1)| + j] == Cell(it, req.paramValues[j])
  {
    RoundsPrefix(req.paramValues, it, RoundCount(req));
    assert Rounds(req.paramValues, it)[|Rounds(req.paramValues, it - 1)| + j] == Cell(it, req.paramValues[j]);
  }

  /** The world answers every trial the job may run. */
  predicate Covers(req: Request, w: World) {
    |w.submissions| >= TrialCount(req) && |w.replies| >= TrialCount(req)
  }

  /** The record of trial `t`. */
  function RecordAt(req: Request, w: World, t: nat): Record
    requires Covers(req, w) && t < TrialCount(req)
  {
    var c := Cells(req)[t];
    RecordFor(c, TrialCode(req, w, c.param), w.submissions[t], w.replies[t])
  }

  /** The record every trial of the grid would leave, in order. */
  function Records(req: Request, w: World): (rs: seq<Record>)
    requires Covers(req, w)
    ensures |rs| == TrialCount(req)
  {
    seq(TrialCount(req), t requires 0 <= t < TrialCount(req) => RecordAt(req, w, t))
  }

  /** The records of trials 0..n-1. */
  function HistoryPrefix(req: Request, w: World, n: nat): seq<Record>
    requires Covers(req, w) && n <= TrialCount(req)
  {
    Records(req, w)[..n]
  }

  /** How many trials the cancellation checks let through. */
  function Planned(req: Request, w: World): nat {
    match w.stopBefore
    case None => TrialCount(req)
    case Some(k) => if k < TrialCount(req) then k else TrialCount(req)
  }

  /** The first of the first `n` submissions that makes the job abort, or `n`. */
  function FirstAbort(subs: seq<Submission>, n: nat): (k: nat)
    requires n <= |subs|
    ensures k <= n
    ensures forall i :: 0 <= i < k ==> !subs[i].Malformed?
    ensures k < n ==> subs[k].Malformed?
  {
    if n == 0 then 0
    else if FirstAbort(subs, n - 1) < n - 1 then FirstAbort(subs, n - 1)
    else if subs[n - 1].Malformed? then n - 1
    else n
  }

  /** The message of the `ValueError` that `time.sleep` raises on a negative length. */
  const SleepNegative: string := "sleep length must be non-negative"

  /** The message of the `OverflowError` that `time.sleep` raises on a length too large for its clock type. */
  const SleepOverflow: string := "timestamp too large to convert to C _PyTime_t"

  /** 2^63 nanoseconds, in seconds: `time.sleep` converts its length to a signed 64-bit count of nanoseconds. */
  const SleepLimit: real := 9223372036.854775808

  /**
   * The error `time.sleep(d)` raises, if any. The conversion to nanoseconds
   * comes first and overflows outside [-2^63, 2^63) nanoseconds; a length
   * that fits is then refused when it is negative.
   */
  function SleepFailure(d: real): (e: Option<string>)
    ensures e.None? <==> 0.0 <= d < SleepLimit
    ensures e.Some? && -SleepLimit <= d < SleepLimit ==> e.value == SleepNegative
    ensures d < -SleepLimit || d >= SleepLimit ==> e == Some(SleepOverflow)
  {
    if d < -SleepLimit || d >= SleepLimit then Some(SleepOverflow)
    else if d < 0.0 then Some(SleepNegative)
    else None
  }

  /** `time.sleep(req.delay_between_rounds)` raises. */
  predicate SleepRaises(req: Request) {
    SleepFailure(req.delayBetweenRounds).Some?
  }

  /** What the pause after a trial raises, when it does. */
  function SleepError(req: Request): string
    requires SleepRaises(req)
  {
    SleepFailure(req.delayBetweenRounds).value
  }

  /**
   * The job ends at the pause after its first trial: the pause raises, and
   * that trial ran and did not abort while its reply was read.
   */
  predicate SleepAborts(req: Request, w: World)
    requires Covers(req, w)
  {
    SleepRaises(req) && 0 < Planned(req, w) && !w.submissions[0].Malformed?
  }

  /**
   * How many trials the job attempts: up to the planned count, and through the
   * first abort; only the first when the pause after it raises.
   */
  function Attempted(req: Request, w: World): (n: nat)
    requires Covers(req, w)
    ensures n <= Planned(req, w) <= TrialCount(req)
    ensures SleepAborts(req, w) ==> n == 1
  {
    var a := FirstAbort(w.submissions, Planned(req, w));
    if SleepAborts(req, w) then 1
    else if a < Planned(req, w) then a + 1 else Planned(req, w)
  }

  /**
   * `state["history"]` when the job has finished: the records of the attempted
   * trials, and the error of the pause when that ended the job.
   */
  function JobHistory(req: Request, w: World): seq<Record>
    requires Covers(req, w)
  {
    HistoryPrefix(req, w, Attempted(req, w)) + (if SleepAborts(req, w) then [Aborted(SleepError(req))] else [])
  }

  /** Record `i` of the first `n` is the record of trial `i`. */
  lemma HistoryPrefixAt(req: Request, w: World, n: nat)
    requires Covers(req, w) && n <= TrialCount(req)
    ensures |HistoryPrefix(req, w, n)| == n
    ensures forall i :: 0 <= i < n ==> HistoryPrefix(req, w, n)[i] == RecordAt(req, w, i)
  {
  }

  /** Each trial appends its own record. */
  lemma HistoryPrefixGrows(req: Request, w: World, t: nat)
    requires Covers(req, w) && t < TrialCount(req)
    ensures HistoryPrefix(req, w, t + 1) == HistoryPrefix(req, w, t) + [RecordAt(req, w, t)]
  {
    var rs := Records(req, w);
    assert rs[..t + 1] == rs[..t] + [rs[t]];
  }

  /**
   * The history has one record per attempted trial, in grid order: record `i`
   * belongs to round `i / n + 1` and value `param_values[i % n]`; it never
   * exceeds `iterations × len(param_values)` records, nor two when the pause
   * raises; only its last record can be an abort; and a completed trial always
   * has a metric.
   */
  lemma JobHistoryShape(req: Request, w: World)
    requires Covers(req, w)
    ensures !SleepRaises(req) ==> |JobHistory(req, w)| <= RoundCount(req) * |req.paramValues|
    ensures SleepRaises(req) ==> |JobHistory(req, w)| <= 2
    ensures forall i :: 0 <= i < |JobHistory(req, w)| && !JobHistory(req, w)[i].Aborted? ==>
              && |req.paramValues| > 0
              && JobHistory(req, w)[i].iter == i / |req.paramValues| + 1
              && JobHistory(req, w)[i].param == req.paramValues[i % |req.paramValues|]
    ensures forall i :: 0 <= i < |JobHistory(req, w)| - 1 ==> !JobHistory(req, w)[i].Aborted?
    ensures forall i :: 0 <= i < |JobHistory(req, w)| && JobHistory(req, w)[i].Completed? ==>
              JobHistory(req, w)[i].metric.Some?
  {
    var h := JobHistory(req, w);
    HistoryPrefixAt(req, w, Attempted(req, w));
    RoundsOrder(req.paramValues, RoundCount(req));
  }

  /**
   * When the pause between trials does not raise, submission failures never
   * end the job: without an aborting reply the job attempts every trial the
   * cancellation checks let through, which is all of them when no `/stop`
   * arrives and the first `k` when one arrives before trial `k`.
   */
  lemma JobRunsAllPlanned(req: Request, w: World)
    requires Covers(req, w) && !SleepRaises(req)
    requires forall t :: 0 <= t < TrialCount(req) ==> !w.submissions[t].Malformed?
    ensures |JobHistory(req, w)| == Planned(req, w)
    ensures w.stopBefore.None? ==> |JobHistory(req, w)| == RoundCount(req) * |req.paramValues|
    ensures w.stopBefore.Some? && w.stopBefore.value <= TrialCount(req) ==>
              |JobHistory(req, w)| == w.stopBefore.value
  {
    HistoryPrefixAt(req, w, Attempted(req, w));
    RoundsOrder(req.paramValues, RoundCount(req));
  }

  /** An aborting reply ends the history with its error, and nothing after it is attempted. */
  lemma JobAbortsAtFirstMalformed(req: Request, w: World, t: nat)
    requires Covers(req, w) && t < Planned(req, w) && (t == 0 || !SleepRaises(req))
    requires w.submissions[t].Malformed?
    requires forall i :: 0 <= i < t ==> !w.submissions[i].Malformed?
    ensures |JobHistory(req, w)| == t + 1
    ensures JobHistory(req, w)[t] == Aborted(w.submissions[t].error)
  {
    HistoryPrefixAt(req, w, Attempted(req, w));
  }

  // ----- the worked example -----

  /** The request of the worked example: print the value as the metric, values 1.0 and 2.0, one round. */
  function ExampleRequest(): Request {
    Request("print('METRIC: {param}')", "param", [1.0, 2.0], 1, 0.0)
  }

  /** Each trial of the example runs `print('METRIC: <str(v)>')`: the value's spelling inside the string literal. */
  lemma ExampleTrialCode(w: World, v: real)
    ensures TrialCode(ExampleRequest(), w, v) == "print('METRIC: " + w.show(v) + "')"
  {
    var x, y := "print('METRIC: ", "')";
    assert ExampleRequest().codeTemplate == x + ParamToken + y;
    assert forall i :: 0 <= i < |x| ==> x[i] != ParamToken[0];
    ReplaceAfterPlainPrefix(x, ParamToken, y, w.show(v));
    assert forall i :: !OccursAt(y, ParamToken, i);
    ReplaceAbsent(y, ParamToken, w.show(v));
  }

  /**
   * Run against experiments that print "METRIC: 1.0" and "METRIC: 2.0", the
   * example leaves two completed records with metrics 1.0 and 2.0, and the
   * second is the best.
   */
  lemma ExampleRun(w: World)
    requires w.submissions == [Submitted(Some("METRIC: 1.0\n"), Some("")), Submitted(Some("METRIC: 2.0\n"), Some(""))]
    requires |w.replies| >= 2 && w.stopBefore.None?
    ensures JobHistory(ExampleRequest(), w)
         == [Completed(1, 1.0, Some(1.0), "METRIC: 1.0\n", ""), Completed(1, 2.0, Some(2.0), "METRIC: 2.0\n", "")]
    ensures BestOf(JobHistory(ExampleRequest(), w)) == Champion(2.0, 2.0, "METRIC: 2.0\n")
  {
    ExampleHistory(w);
    BestOfTwo(Completed(1, 1.0, Some(1.0), "METRIC: 1.0\n", ""), Completed(1, 2.0, Some(2.0), "METRIC: 2.0\n", ""));
  }

  lemma ExampleHistory(w: World)
    requires w.submissions == [Submitted(Some("METRIC: 1.0\n"), Some("")), Submitted(Some("METRIC: 2.0\n"), Some(""))]
    requires |w.replies| >= 2 && w.stopBefore.None?
    ensures JobHistory(ExampleRequest(), w)
         == [Completed(1, 1.0, Some(1.0), "METRIC: 1.0\n", ""), Completed(1, 2.0, Some(2.0), "METRIC: 2.0\n", "")]
  {
    ExampleOutputsParse();
    ExampleTwoTrials(w, "METRIC: 1.0\n", "METRIC: 2.0\n");
  }

  /** Both trials of the example submit and print their metric, so both are recorded with it. */
  lemma ExampleTwoTrials(w: World, out1: string, out2: string)
    requires w.submissions == [Submitted(Some(out1), Some("")), Submitted(Some(out2), Some(""))]
    requires |w.replies| >= 2 && w.stopBefore.None?
    requires ParseMetric(out1).Some? && ParseMetric(out2).Some?
    ensures Covers(ExampleRequest(), w)
    ensures JobHistory(ExampleRequest(), w)
         == [Completed(1, 1.0, ParseMetric(out1), out1, ""), Completed(1, 2.0, ParseMetric(out2), out2, "")]
  {
    ExampleAttempted(w);
    ExampleRecordAt(w, 0, out1);
    ExampleRecordAt(w, 1, out2);
  }

  /** Without a stop or an abort, the example attempts both of its trials. */
  lemma ExampleAttempted(w: World)
    requires |w.submissions| >= 2 && |w.replies| >= 2 && w.stopBefore.None?
    requires !w.submissions[0].Malformed? && !w.submissions[1].Malformed?
    ensures Covers(ExampleRequest(), w)
    ensures Attempted(ExampleRequest(), w) == 2
    ensures JobHistory(ExampleRequest(), w) == [RecordAt(ExampleRequest(), w, 0), RecordAt(ExampleRequest(), w, 1)]
  {
    var req := ExampleRequest();
    ExampleCells();
    assert !SleepRaises(req);
    HistoryPrefixGrows(req, w, 0);
    HistoryPrefixGrows(req, w, 1);
  }

  /** Trial `t` of the example records the metric its output carries. */
  lemma ExampleRecordAt(w: World, t: nat, out: string)
    requires Covers(ExampleRequest(), w) && t < 2
    requires w.submissions[t] == Submitted(Some(out), Some(""))
    requires ParseMetric(out).Some?
    ensures RecordAt(ExampleRequest(), w, t) == Completed(1, ExampleRequest().paramValues[t], ParseMetric(out), out, "")
  {
    ExampleCells();
    var c := Cell(1, ExampleRequest().paramValues[t]);
    PrintedRecord(c, TrialCode(ExampleRequest(), w, c.param), out, Some(""), w.replies[t]);
  }

  /** A trial whose output carries a metric records that metric, whatever the scorer says. */
  lemma PrintedRecord(c: Cell, code: string, out: string, err: Option<string>, reply: PredictReply)
    requires ParseMetric(out).Some?
    ensures RecordFor(c, code, Submitted(Some(out), err), reply)
         == Completed(c.iter, c.param, ParseMetric(out), out, err.GetOr(""))
  {
  }

  /** The example's grid is one round over 1.0 and 2.0. */
  lemma ExampleCells()
    ensures Cells(ExampleRequest()) == [Cell(1, 1.0), Cell(1, 2.0)]
  {
    assert Row(ExampleRequest().paramValues, 1) == [Cell(1, 1.0), Cell(1, 2.0)];
  }

  /** The example's two outputs carry the metrics 1.0 and 2.0. */
  lemma ExampleOutputsParse()
    ensures ParseMetric("METRIC: 1.0\n") == Some(1.0)
    ensures ParseMetric("METRIC: 2.0\n") == Some(2.0)
  {
    assert NatText(1) == "1" && NatText(2) == "2";
    assert Marker + " " + NatText(1) + ".0" + "\n" == "METRIC: 1.0\n";
    assert Marker + " " + NatText(2) + ".0" + "\n" == "METRIC: 2.0\n";
    ParseMetricOfPrintedWhole(1, "\n");
    ParseMetricOfPrintedWhole(2, "\n");
  }

  /** Two records with metrics, the second strictly greater: the second is the best. */
  lemma BestOfTwo(a: Record, b: Record)
    requires MetricOf(a).Some? && MetricOf(b).Some? && MetricOf(b).value > MetricOf(a).value
    ensures BestOf([a, b]) == ChampionOf(b)
  {
    assert [a, b][..1] == [a];
    assert [a][..0] == [];
    assert BestOf([a]) == ChampionOf(a);
  }

  // ----- steps of the job, for its loop -----

  /** Promotion is applied record by record. */
  lemma BestOfAppend(h: seq<Record>, r: Record)
    ensures BestOf(h + [r]) == Promote(BestOf(h), r)
  {
    assert (h + [r])[..|h|] == h;
  }

  /** A job that got through `t` trials without an abort, and whose checks let no more through, has the first `t` records. */
  lemma JobEndsAfter(req: Request, w: World, t: nat)
    requires Covers(req, w) && t == Planned(req, w) && (t == 0 || !SleepRaises(req))
    requires forall i :: 0 <= i < t ==> !w.submissions[i].Malformed?
    ensures JobHistory(req, w) == HistoryPrefix(req, w, t)
  {
  }

  /** A job whose trial `t` aborts ends with that trial's record. */
  lemma JobEndsAtAbort(req: Request, w: World, t: nat)
    requires Covers(req, w) && t < Planned(req, w) && (t == 0 || !SleepRaises(req))
    requires w.submissions[t].Malformed?
    requires forall i :: 0 <= i < t ==> !w.submissions[i].Malformed?
    ensures JobHistory(req, w) == HistoryPrefix(req, w, t) + [Aborted(w.submissions[t].error)]
  {
  }

  /**
   * A pause that `time.sleep` refuses ends the job right after its first
   * trial: the history is that trial's record followed by the error.
   */
  lemma JobEndsAtSleep(req: Request, w: World)
    requires Covers(req, w) && SleepRaises(req) && 0 < Planned(req, w)
    requires !w.submissions[0].Malformed?
    ensures JobHistory(req, w) == [RecordAt(req, w, 0), Aborted(SleepError(req))]
  {
    HistoryPrefixGrows(req, w, 0);
  }

  // ----- the read API -----

  /** The start index Python computes for the slice `h[i:]` of a list of length `len`. */
  function SliceStart(len: nat, i: int): nat {
    if i < 0 then (if len + i < 0 then 0 else len + i)
    else if i > len then len
    else i
  }

  /** `state["history"][-200:]` */
  function LatestRecords(h: seq<Record>): seq<Record> {
    h[SliceStart(|h|, -(HistoryWindow as int))..]
  }

  /** `/history` returns the last `min(200, len(history))` records, in order. */
  lemma LatestRecordsAreTail(h: seq<Record>)
    ensures |LatestRecords(h)| == if |h| < HistoryWindow then |h| else HistoryWindow
    ensures h == h[..|h| - |LatestRecords(h)|] + LatestRecords(h)
  {
  }
}
