/**
 * The HR agent: an employee's request is routed by its type to one of four
 * canned replies, its message is sent to the sentiment model, and a negative
 * reading adds an escalation note for HR.
 */
module HrAgent {
  import opened Wrappers
  import opened Text
  import opened ModelServer

  /** The request body: employee, request type and free-text message. */
  datatype HrRequest = HrRequest(employeeId: string, requestType: string, message: string)

  /** The four reply builders. */
  datatype Handler = LeaveHandler | SalaryHandler | OnboardingHandler | GeneralHandler

  /** The endpoint's answer; `timestamp` is the clock's reading, formatted outside the model. */
  datatype HrResponse = HrResponse(
    status: string, agent: string, timestamp: string,
    response: string, sentiment: string, escalation: Option<string>)

  const Unknown := "unknown"
  const Negative := "negative"
  const EscalationNote := "Employee message seems negative. HR should follow up personally."

  /** `get_sentiment`: the model's label, or "unknown" when it has none or the call fails. */
  function GetSentiment(reply: PredictReply): (s: string)
    ensures reply.Prediction? && reply.prediction.Some? ==> s == reply.prediction.value
    ensures reply.PredictFailed? || reply.prediction.None? ==> s == Unknown
  {
    match reply
    case PredictFailed => Unknown
    case Prediction(p) => p.GetOr(Unknown)
  }

  /** The routing: the lower-cased request type picks a handler, anything unrecognised goes to the general one. */
  function Route(requestType: string): (h: Handler)
    ensures h == LeaveHandler <==> Lower(requestType) == "leave"
    ensures h == SalaryHandler <==> Lower(requestType) == "salary"
    ensures h == OnboardingHandler <==> Lower(requestType) == "onboarding"
    ensures h == GeneralHandler <==>
              Lower(requestType) !in {"leave", "salary", "onboarding"}
  {
    var t := Lower(requestType);
    if t == "leave" then LeaveHandler
    else if t == "salary" then SalaryHandler
    else if t == "onboarding" then OnboardingHandler
    else GeneralHandler
  }

  /** The request type is matched without regard to case. */
  lemma RouteIgnoresCase(requestType: string)
    ensures Route(Lower(requestType)) == Route(requestType)
  {
    LowerIdempotent(requestType);
  }

  // ----- the reply builders; the message never appears in a reply -----

  const LeaveHead := "Leave request received for employee "
  const LeaveTail := ". HR will review and update you soon."
  const OnboardingHead := "Onboarding request noted for employee "
  const OnboardingTail := ". HR will assist you with the next steps."

  function LeaveReply(emp: string, msg: string): string {
    LeaveHead + emp + LeaveTail
  }

  function SalaryReply(emp: string, msg: string): string {
    "Salary details request received." + " Current payroll cycle is active." + " Finance team will respond shortly."
  }

  function OnboardingReply(emp: string, msg: string): string {
    OnboardingHead + emp + OnboardingTail
  }

  function GeneralReply(emp: string, msg: string): string {
    "Your message has been received." + " HR will look into it."
  }

  /** The reply a handler builds. */
  function ReplyOf(h: Handler, emp: string, msg: string): string {
    match h
    case LeaveHandler => LeaveReply(emp, msg)
    case SalaryHandler => SalaryReply(emp, msg)
    case OnboardingHandler => OnboardingReply(emp, msg)
    case GeneralHandler => GeneralReply(emp, msg)
  }

  /** A reply wrapped in a fixed head and tail names exactly one employee. */
  lemma {:induction false} FramedIdentifies(head: string, tail: string, e1: string, e2: string)
    ensures head + e1 + tail == head + e2 + tail <==> e1 == e2
  {
    if head + e1 + tail == head + e2 + tail {
      var r := head + e1 + tail;
      assert |e1| == |e2|;
      assert e1 == r[|head|..|head| + |e1|];
      assert e2 == r[|head|..|head| + |e2|];
    }
  }

  /** The leave and onboarding replies embed the employee id, and different employees get different replies. */
  lemma RepliesNameTheEmployee(e1: string, m1: string, e2: string, m2: string)
    ensures LeaveReply(e1, m1) == LeaveReply(e2, m2) <==> e1 == e2
    ensures OnboardingReply(e1, m1) == OnboardingReply(e2, m2) <==> e1 == e2
  {
    FramedIdentifies(LeaveHead, LeaveTail, e1, e2);
    FramedIdentifies(OnboardingHead, OnboardingTail, e1, e2);
  }

  /** The salary and general replies do not depend on the request. */
  lemma FixedReplies(e1: string, m1: string, e2: string, m2: string)
    ensures SalaryReply(e1, m1) == SalaryReply(e2, m2)
    ensures GeneralReply(e1, m1) == GeneralReply(e2, m2)
  {
  }

  /** The reply tells which handler built it: the four replies start differently. */
  lemma {:induction false} ReplyIdentifiesHandler(h1: Handler, e1: string, m1: string, h2: Handler, e2: string, m2: string)
    requires ReplyOf(h1, e1, m1) == ReplyOf(h2, e2, m2)
    ensures h1 == h2
  {
    ReplyStartsWithInitial(h1, e1, m1);
    ReplyStartsWithInitial(h2, e2, m2);
  }

  lemma ReplyStartsWithInitial(h: Handler, emp: string, msg: string)
    ensures |ReplyOf(h, emp, msg)| > 0 && ReplyOf(h, emp, msg)[0] == Initial(h)
  {
    match h
    case LeaveHandler => assert (LeaveHead + emp + LeaveTail)[0] == LeaveHead[0];
    case OnboardingHandler => assert (OnboardingHead + emp + OnboardingTail)[0] == OnboardingHead[0];
    case SalaryHandler => assert SalaryReply(emp, msg)[0] == 'S';
    case GeneralHandler => assert GeneralReply(emp, msg)[0] == 'Y';
  }

  /** The first letter of each handler's reply. */
  function Initial(h: Handler): char {
    match h
    case LeaveHandler => 'L'
    case SalaryHandler => 'S'
    case OnboardingHandler => 'O'
    case GeneralHandler => 'Y'
  }

  /**
   * `process_request`: `sentimentReply` is what the model server answered for
   * the message and `now` the formatted clock reading.
   */
  function ProcessRequest(req: HrRequest, sentimentReply: PredictReply, now: string): (r: HrResponse)
    ensures r.status == "processed" && r.agent == "HR" && r.timestamp == now
    ensures r.sentiment == GetSentiment(sentimentReply)
    ensures r.escalation.Some? <==> r.sentiment == Negative
    ensures r.escalation.Some? ==> r.escalation.value == EscalationNote
    ensures r.response == ReplyOf(Route(req.requestType), req.employeeId, req.message)
  {
    var sentiment := GetSentiment(sentimentReply);
    var reply := ReplyOf(Route(req.requestType), req.employeeId, req.message);
    var escalation := if sentiment == Negative then Some(EscalationNote) else None;
    HrResponse("processed", "HR", now, reply, sentiment, escalation)
  }

  /** Without an answer from the model the sentiment is "unknown" and nothing is escalated. */
  lemma NoEscalationWithoutModel(req: HrRequest, now: string)
    ensures ProcessRequest(req, PredictFailed, now).sentiment == Unknown
    ensures ProcessRequest(req, PredictFailed, now).escalation.None?
  {
  }

  /** The escalation rule is case-sensitive: a "Negative" label is echoed but not escalated. */
  lemma EscalationIsCaseSensitive(req: HrRequest, now: string)
    ensures ProcessRequest(req, Prediction(Some("Negative")), now).sentiment == "Negative"
    ensures ProcessRequest(req, Prediction(Some("Negative")), now).escalation.None?
  {
  }

  /** The route, and so the reply, does not depend on the sentiment. */
  lemma ResponseIgnoresSentiment(req: HrRequest, s1: PredictReply, s2: PredictReply, now: string)
    ensures ProcessRequest(req, s1, now).response == ProcessRequest(req, s2, now).response
  {
  }
}
