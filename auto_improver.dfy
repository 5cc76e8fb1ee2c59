/**
 * The auto-improver service (services/agents/rnd/auto_improver/main.py): the
 * module-level `state` record, the background job that fills it, and the
 * `/start`, `/stop`, `/status` and `/history` endpoints. The job runs here as
 * one sequential call; a `/stop` racing it is the world's `stopBefore`.
 */
module AutoImprover {
  import opened Wrappers
  import opened Text
  import opened Metric
  import opened ModelServer
  import opened TrialSearch

  datatype StartReply = Started(jobId: string) | AlreadyRunning
  datatype StopReply = Stopping | NotRunning

  /** The body of `/status`. */
  datatype StatusView = StatusView(running: bool, jobId: Option<string>, best: Best, historyLen: nat)

  /** The job `id` has run `t` trials: `h` holds their records, `b` the best of them, and none of them aborted. */
  ghost predicate Reached(h: seq<Record>, b: Best, jobId: Option<string>, id: string, req: Request, w: World, t: nat) {
    && Covers(req, w)
    && t <= TrialCount(req)
    && (forall i :: 0 <= i < t ==> !w.submissions[i].Malformed?)
    && h == HistoryPrefix(req, w, t)
    && b == BestOf(h)
    && jobId == Some(id)
  }

  /**
   * Where the cancellation checks stand before round `it` with `t` trials
   * done: while running, every earlier round is complete and no `/stop` has
   * landed yet; once stopped, the `/stop` landed just before trial `t`.
   */
  ghost predicate Polled(running: bool, req: Request, w: World, it: nat, t: nat) {
    if running then
      && 1 <= it && t == |Rounds(req.paramValues, it - 1)|
      && (w.stopBefore.None? || w.stopBefore.value >= t)
    else
      w.stopBefore == Some(t)
  }

  /** When the rounds run out or a `/stop` ended them, the job has attempted all it was allowed to. */
  lemma LoopExit(req: Request, w: World, running: bool, it: nat, t: nat)
    requires t <= TrialCount(req) && Polled(running, req, w, it, t)
    requires running ==> it == RoundCount(req) + 1
    ensures t == Planned(req, w)
  {
  }

  /** `state`: the one record the endpoints and the job share. */
  class Service {
    var running: bool
    var jobId: Option<string>
    var best: Best
    var history: seq<Record>

    /**
     * After `t` trials of the job `id`: their records, the best of them, none
     * of them an abort, and no pause has raised yet.
     */
    ghost predicate Progress(id: string, req: Request, w: World, t: nat)
      reads this
    {
      Reached(history, best, jobId, id, req, w, t) && (t == 0 || !SleepRaises(req))
    }

    /** The state at import time. */
    constructor ()
      ensures !running && jobId == None && best == Sentinel && history == []
    {
      running := false;
      jobId := None;
      best := Sentinel;
      history := [];
    }

    /**
     * `/start`: refuses while a job runs and changes nothing either way; the
     * job it hands to a thread sets `running` itself.
     */
    method Start(newId: string) returns (r: StartReply)
      ensures running ==> r == AlreadyRunning
      ensures !running ==> r == Started(newId)
    {
      if running {
        return AlreadyRunning;
      }
      return Started(newId);
    }

    /** `/stop`: clears the flag the job polls, and nothing else. */
    method Stop() returns (r: StopReply)
      modifies this
      ensures r == (if old(running) then Stopping else NotRunning)
      ensures !running
      ensures jobId == old(jobId) && best == old(best) && history == old(history)
    {
      if !running {
        return NotRunning;
      }
      running := false;
      return Stopping;
    }

    /** `/status`: reads the state and leaves it alone. */
    method Status() returns (s: StatusView)
      ensures s.running == running && s.jobId == jobId && s.best == best
      ensures s.historyLen == |history|
    {
      s := StatusView(running, jobId, best, |history|);
    }

    /** `/history`: the latest 200 records, oldest first. */
    method History() returns (h: seq<Record>)
      ensures h == LatestRecords(history)
      ensures |h| == (if |history| < HistoryWindow then |history| else HistoryWindow)
      ensures history == history[..|history| - |h|] + h
    {
      h := history[SliceStart(|history|, -(HistoryWindow as int))..];
      LatestRecordsAreTail(history);
    }

    /**
     * `auto_improve_job(job_id, req)`: resets the history and the best record,
     * then runs round after round over the parameter values, checking the
     * cancellation flag before each round and each trial. It ends with the
     * history of `JobHistory`, `best` the promotion of its records, and the
     * job no longer running.
     */
    method AutoImproveJob(id: string, req: Request, w: World)
      requires Covers(req, w)
      modifies this
      ensures !running && jobId == None
      ensures history == JobHistory(req, w)
      ensures best == BestOf(history)
    {
      running := true;
      jobId := Some(id);
      history := [];
      best := Sentinel;
      RunRounds(id, req, w);
    }

    /**
     * The outer loop of `auto_improve_job` and its ending: round after round
     * until the rounds run out, a `/stop` is seen, or a reply or a pause aborts the job.
     */
    method RunRounds(id: string, req: Request, w: World)
      requires Covers(req, w) && running
      requires history == [] && best == Sentinel && jobId == Some(id)
      modifies this
      ensures !running && jobId == None
      ensures history == JobHistory(req, w)
      ensures best == BestOf(history)
    {
      var rounds := RoundCount(req);
      var t := 0;
      var it := 1;
      while it <= rounds
        invariant 1 <= it <= rounds + 1
        invariant Progress(id, req, w, t)
        invariant Polled(running, req, w, it, t)
      {
        if !running {
          break;
        }
        var aborted;
        t, aborted := RunRound(id, req, w, it, t);
        if aborted {
          return;
        }
        it := it + 1;
      }
      LoopExit(req, w, running, it, t);
      JobEndsAfter(req, w, t);
      running := false;
      jobId := None;
    }

    /**
     * The inner loop of `auto_improve_job` for round `it`: each value in turn,
     * checking the cancellation flag before each trial. It ends either with
     * the round complete, with the flag found cleared by a `/stop`, or with
     * the job aborted.
     */
    method RunRound(id: string, req: Request, w: World, it: nat, t0: nat) returns (t: nat, aborted: bool)
      requires Progress(id, req, w, t0) && running && Polled(running, req, w, it, t0)
      requires 1 <= it <= RoundCount(req)
      modifies this
      ensures aborted ==> !running && jobId == None && history == JobHistory(req, w) && best == BestOf(history)
      ensures !aborted ==> Progress(id, req, w, t) && Polled(running, req, w, it + 1, t)
    {
      var values := req.paramValues;
      ghost var base := |Rounds(values, it - 1)|;
      RoundBounds(req, it);
      t := t0;
      var j := 0;
      while j < |values|
        invariant 0 <= j <= |values|
        invariant running
        invariant t == base + j
        invariant w.stopBefore.None? || w.stopBefore.value >= t
        invariant Progress(id, req, w, t)
        decreases |values| - j
      {
        if w.stopBefore == Some(t) {
          // a `/stop` request lands while the previous trial was in flight
          var _ := Stop();
        }
        if !running {
          return t, false;
        }
        aborted := RunTrial(id, req, w, it, j, t);
        if aborted {
          return;
        }
        t := t + 1;
        j := j + 1;
      }
      aborted := false;
    }

    /**
     * One pass of the inner loop body of `auto_improve_job`: substitute the
     * value, submit, append the trial's record, promoting `best` on a strictly
     * greater metric, and pause. A reply whose reading raises, or a pause that
     * `time.sleep` refuses, ends the job through its outer handler: `running`
     * cleared, the error recorded, `job_id` cleared.
     */
    method RunTrial(id: string, req: Request, w: World, it: nat, j: nat, t: nat) returns (aborted: bool)
      requires Progress(id, req, w, t)
      requires 1 <= it <= RoundCount(req) && j < |req.paramValues|
      requires t == |Rounds(req.paramValues, it - 1)| + j
      requires t < Planned(req, w)
      modifies this
      ensures aborted == (w.submissions[t].Malformed? || SleepRaises(req))
      ensures aborted ==> !running && jobId == None && history == JobHistory(req, w) && best == BestOf(history)
      ensures !aborted ==> Progress(id, req, w, t + 1) && running == old(running)
    {
      var v := req.paramValues[j];
      CellAtPosition(req, it, j);
      assert Cells(req)[t] == Cell(it, v);
      var code := ReplaceAll(req.codeTemplate, ParamToken, w.show(v));
      assert code == TrialCode(req, w, v);
      var rec: Record;
      match w.submissions[t] {
        case SubmitFailed(e) =>
          rec := SubmitError(it, v, e);
        case Malformed(e) =>
          Abort(id, req, w, t, e);
          return true;
        case Submitted(out, err) =>
          rec := CompletedTrial(it, v, code, out, err, w.replies[t]);
      }
      AppendRecord(id, req, w, t, rec);
      // `time.sleep(req.delay_between_rounds)`, after a failed submission as after a completed one
      var failure := SleepFailure(req.delayBetweenRounds);
      if failure.Some? {
        SleepAbort(id, req, w, failure.value);
        return true;
      }
      return false;
    }

    /** Appends trial `t`'s record and promotes `best` when its metric is strictly greater. */
    method AppendRecord(ghost id: string, ghost req: Request, ghost w: World, ghost t: nat, rec: Record)
      requires Progress(id, req, w, t) && t < TrialCount(req) && !w.submissions[t].Malformed?
      requires rec == RecordAt(req, w, t)
      modifies this
      ensures Reached(history, best, jobId, id, req, w, t + 1) && running == old(running)
    {
      HistoryPrefixGrows(req, w, t);
      BestOfAppend(history, rec);
      history := history + [rec];
      if rec.Completed? && rec.metric.Some? && (best.Sentinel? || rec.metric.value > best.metric) {
        best := Champion(rec.param, rec.metric.value, rec.stdout);
      }
    }

    /** The job's outer handler: the error is recorded, `running` and `job_id` are cleared. */
    method Abort(ghost id: string, ghost req: Request, ghost w: World, ghost t: nat, e: string)
      requires Progress(id, req, w, t) && t < Planned(req, w) && w.submissions[t] == Malformed(e)
      modifies this
      ensures !running && jobId == None && history == JobHistory(req, w) && best == BestOf(history)
    {
      JobEndsAtAbort(req, w, t);
      BestOfAppend(history, Aborted(e));
      running := false;
      history := history + [Aborted(e)];
      jobId := None;
    }

    /**
     * The outer handler when the pause after the first trial raises: the
     * error `e` of `time.sleep` is recorded, `running` and `job_id` are cleared.
     */
    method SleepAbort(ghost id: string, ghost req: Request, ghost w: World, e: string)
      requires Reached(history, best, jobId, id, req, w, 1) && SleepRaises(req) && 0 < Planned(req, w)
      requires e == SleepError(req)
      modifies this
      ensures !running && jobId == None && history == JobHistory(req, w) && best == BestOf(history)
    {
      JobEndsAtSleep(req, w);
      BestOfAppend(history, Aborted(e));
      running := false;
      history := history + [Aborted(e)];
      jobId := None;
    }

    /** `/start` followed by the job it launches, run to its end. */
    method StartAndRun(req: Request, newId: string, w: World) returns (r: StartReply)
      requires Covers(req, w)
      modifies this
      ensures old(running) ==> r == AlreadyRunning
      ensures old(running) ==> running && jobId == old(jobId) && best == old(best) && history == old(history)
      ensures !old(running) ==> r == Started(newId)
      ensures !old(running) ==> !running && jobId == None && history == JobHistory(req, w) && best == BestOf(history)
    {
      r := Start(newId);
      if r.Started? {
        AutoImproveJob(newId, req, w);
      }
    }
  }

  /**
   * The record of a trial whose experiment came back: output and error text
   * default to "", the printed metric is parsed, and without one the fallback
   * scorer rates the stripped output, or the code when the output is blank.
   */
  method CompletedTrial(it: nat, v: real, code: string, out: Option<string>, err: Option<string>, reply: PredictReply)
    returns (rec: Record)
    ensures rec == RecordFor(Cell(it, v), code, Submitted(out, err), reply)
  {
    var stdout := out.GetOr("");
    var stderr := err.GetOr("");
    var metric := ParseMetric(stdout);
    if metric.None? {
      var candidate := Strip(stdout);
      if candidate == [] {
        candidate := code;
      }
      metric := Some(ModelScore(candidate, reply));
    }
    rec := Completed(it, v, metric, stdout, stderr);
  }

  /** A second `/stop` finds nothing running and changes nothing. */
  method StopTwice(s: Service) returns (first: StopReply, second: StopReply)
    modifies s
    ensures first == (if old(s.running) then Stopping else NotRunning)
    ensures second == NotRunning
    ensures !s.running && s.jobId == old(s.jobId) && s.best == old(s.best) && s.history == old(s.history)
  {
    first := s.Stop();
    second := s.Stop();
  }
}
