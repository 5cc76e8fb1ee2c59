/**
 * The vitals monitor: a device posts one reading (patient, metric name,
 * value, optional time stamp); the service classifies it with a fixed
 * threshold table and forwards an alert to the orchestrator unless the
 * reading is low-severity.
 */
module VitalsMonitor {
  import opened Wrappers
  import opened Text

  datatype Severity = Low | Medium | High {
    /** The label the service reports. */
    function Label(): (s: string)
      ensures s in {"low", "medium", "high"}
    {
      match this
      case Low => "low"
      case Medium => "medium"
      case High => "high"
    }

    /** Low < medium < high. */
    function Rank(): nat {
      match this
      case Low => 0
      case Medium => 1
      case High => 2
    }
  }

  /**
   * `severity_for`: heart rate, SpO2 and blood pressure (any metric whose
   * lower-cased name starts with "bp", read as systolic) each have a high band
   * and a wider medium band; every other metric is medium.
   */
  function SeverityFor(metric: string, value: real): (s: Severity)
    ensures Lower(metric) == "hr" ==>
              && (s == High <==> value < 40.0 || value > 120.0)
              && (s == Low <==> 55.0 <= value <= 100.0)
    ensures Lower(metric) == "spo2" ==>
              && (s == High <==> value < 88.0)
              && (s == Low <==> value >= 94.0)
    ensures StartsWith(Lower(metric), "bp") ==>
              && (s == High <==> value > 180.0 || value < 80.0)
              && (s == Low <==> 90.0 <= value <= 140.0)
    ensures Lower(metric) != "hr" && Lower(metric) != "spo2" && !StartsWith(Lower(metric), "bp") ==>
              s == Medium
  {
    var m := Lower(metric);
    assert (m == "hr" || m == "spo2") ==> !StartsWith(m, "bp") by {
      if m == "hr" || m == "spo2" { assert m[..2][0] != "bp"[0]; }
    }
    if m == "hr" then
      if value < 40.0 || value > 120.0 then High
      else if value < 55.0 || value > 100.0 then Medium
      else Low
    else if m == "spo2" then
      if value < 88.0 then High
      else if value < 94.0 then Medium
      else Low
    else if StartsWith(m, "bp") then
      if value > 180.0 || value < 80.0 then High
      else if value > 140.0 || value < 90.0 then Medium
      else Low
    else
      Medium
  }

  /** The metric name is matched without regard to case. */
  lemma SeverityIgnoresCase(metric: string, value: real)
    ensures SeverityFor(Lower(metric), value) == SeverityFor(metric, value)
  {
    LowerIdempotent(metric);
  }

  /** A lower oxygen saturation is never less severe. */
  lemma Spo2SeverityFalls(metric: string, v1: real, v2: real)
    requires Lower(metric) == "spo2" && v1 <= v2
    ensures SeverityFor(metric, v2).Rank() <= SeverityFor(metric, v1).Rank()
  {
  }

  /** One reading as the device posts it. */
  datatype VitalsPayload = VitalsPayload(patientId: string, metric: string, value: real, ts: Option<string>)

  /** The alert forwarded to the orchestrator. */
  datatype Alert = Alert(patientId: string, metric: string, value: real, ts: string, severity: string)

  /** What the POST to the orchestrator came to: its JSON body, or the exception it raised. */
  datatype Forward = Delivered(body: string) | ForwardFailed(error: string)

  /** The endpoint's answer. */
  datatype VitalsReply =
    /** `{"status": "ok", "severity": …}`: no alert was needed. */
    | Acknowledged(severity: string)
    /** `{"status": "alert_sent", "orchestrator_response": …}` */
    | AlertSent(orchestratorResponse: string)
    /** An `HTTPException`. */
    | HttpError(code: nat, detail: string)

  const ForwardFailurePrefix := "Failed to send alert to orchestrator: "

  /** `payload.ts or <now>`: the device's time stamp unless it is missing or empty. */
  function AlertTime(ts: Option<string>, now: string): (t: string)
    ensures ts.Some? && ts.value != "" ==> t == ts.value
    ensures ts.None? || ts.value == "" ==> t == now
  {
    if ts.Some? && ts.value != "" then ts.value else now
  }

  /** The alert a reading calls for: one exactly when it is medium or high, carrying the reading and its severity. */
  function AlertFor(p: VitalsPayload, now: string): (a: Option<Alert>)
    ensures a.Some? <==> SeverityFor(p.metric, p.value) in {Medium, High}
    ensures a.Some? ==> a.value.severity == SeverityFor(p.metric, p.value).Label() != "low"
    ensures a.Some? ==> a.value.patientId == p.patientId && a.value.metric == p.metric && a.value.value == p.value
    ensures a.Some? ==> a.value.ts == AlertTime(p.ts, now)
  {
    var severity := SeverityFor(p.metric, p.value);
    if severity in {Medium, High} then
      Some(Alert(p.patientId, p.metric, p.value, AlertTime(p.ts, now), severity.Label()))
    else
      None
  }

  /**
   * `send_vitals`: `now` is the clock's reading and `orchestrator` what the
   * POST of a given alert comes to.
   */
  function SendVitals(p: VitalsPayload, now: string, orchestrator: Alert -> Forward): (r: VitalsReply)
    ensures r.Acknowledged? <==> SeverityFor(p.metric, p.value) == Low
    ensures r.Acknowledged? ==> r.severity == "low"
    ensures r.AlertSent? <==>
              AlertFor(p, now).Some? && orchestrator(AlertFor(p, now).value).Delivered?
    ensures r.AlertSent? ==> r.orchestratorResponse == orchestrator(AlertFor(p, now).value).body
    ensures r.HttpError? ==>
              && AlertFor(p, now).Some?
              && orchestrator(AlertFor(p, now).value).ForwardFailed?
              && r.code == 502
              && r.detail == ForwardFailurePrefix + orchestrator(AlertFor(p, now).value).error
  {
    match AlertFor(p, now)
    case None => Acknowledged(SeverityFor(p.metric, p.value).Label())
    case Some(alert) =>
      match orchestrator(alert)
      case Delivered(body) => AlertSent(body)
      case ForwardFailed(e) => HttpError(502, ForwardFailurePrefix + e)
  }

  /** A low reading is never forwarded, whatever the orchestrator would say. */
  lemma LowReadingNeedsNoOrchestrator(p: VitalsPayload, now: string, o1: Alert -> Forward, o2: Alert -> Forward)
    requires SeverityFor(p.metric, p.value) == Low
    ensures SendVitals(p, now, o1) == SendVitals(p, now, o2) == Acknowledged("low")
  {
  }

  /** An unknown metric always raises an alert. */
  lemma UnknownMetricAlerts(p: VitalsPayload, now: string)
    requires Lower(p.metric) != "hr" && Lower(p.metric) != "spo2" && !StartsWith(Lower(p.metric), "bp")
    ensures AlertFor(p, now) == Some(Alert(p.patientId, p.metric, p.value, AlertTime(p.ts, now), "medium"))
  {
  }
}
