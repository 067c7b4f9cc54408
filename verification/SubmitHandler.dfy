// The application handler of worker/application.go, effect by effect, together with the
// tailoring coordinator it drives. Repositories, platform, browser, pacing and clock are
// environment: their results are arbitrary within their contracts, each may fail before
// or after it took effect, and between any two effects others may load applications and
// save what they make of whatever they loaded before. Every effect is one step of
// SubmitRuns, or one of the coordinator's own.
module SubmitHandler {
  import opened Wrappers
  import opened Text
  import opened Application
  import opened SubmitRuns
  import opened SubmitCalls

  import opened JsonTree
  import opened Sorting
  import Remote
  import TailoringRuns
  import TailoringSafety
  import TailoringCoordinator
  import O = Overrides
  import T = Tailoring

  // An error as the handler sees it: an operation error, valid or not, or any other error.
  datatype OpError = OpError(category: Category, code: string, valid: bool) | Foreign

  datatype Mode = DryRunMode | ApprovalMode | SubmitMode

  // tailored says whether the plan has a resume tailoring.
  datatype Plan = Plan(mode: Mode, skipValidation: bool, dailyLimit: nat, tailored: bool, allowedPaths: seq<string>)

  datatype Outcome = Apply | Skip | Review

  datatype Submission = Submission(negotiation: bool, applied: bool, alreadyApplied: bool)

  datatype BrowserOutcome = Done | WaitingCaptcha | OtherState

  datatype BrowserReport = Unregistered | Broke | Came(outcome: BrowserOutcome)

  // A decision on a vacancy, with what is to be recorded of it.
  datatype Decision = Decision(
    outcome: Outcome, code: string, reason: string, resume: string, message: string, provenance: Provenance)

  // What the worker has been told in one invocation: the plan, the error of loading the
  // vacancy if there was one, the decision, the day to budget for, the tailoring applied if
  // there is one and the overrides a new one was made with, the platform's and the browser's
  // answer, and whether reconciliation found the application. trouble counts what
  // went wrong besides: a call that failed, a clock that went back, somebody else saving the
  // application.
  datatype Heard = Heard(
    trouble: nat,
    plan: Option<Result<Plan, OpError>>,
    vacancy: Option<Option<OpError>>,
    decision: Option<Decision>,
    window: Option<nat>,
    tailored: Option<Option<T.Record>>,
    overrides: seq<O.Override>,
    answer: Option<Result<Submission, OpError>>,
    browser: Option<BrowserReport>,
    found: Option<bool>)

  const NothingYet := Heard(0, None, None, None, None, None, [], None, None, None)

  // Nothing has been told meanwhile, at most something went wrong.
  predicate NoNews(before: Heard, after: Heard) {
    after == before.(trouble := after.trouble) && before.trouble <= after.trouble
  }

  // The clock has not gone back.
  predicate Timely(now: nat, a: App) {
    now > 0 && now >= a.updatedAt
  }

  // Both say the same to the platform.
  predicate SameWords(a: App, b: App) {
    a.prepared == b.prepared && a.resumeId == b.resumeId && a.message == b.message && a.provenance == b.provenance
  }

  ghost predicate SameRecord(d: Desk, d': Desk, id: string) {
    id in d.apps ==> id in d'.apps && d'.apps[id] == d.apps[id]
  }

  // How preparing an application ended: it goes on, or the invocation is over.
  datatype Preparation = Continue(app: App) | Finish(error: Option<OpError>)

  predicate SkippableCode(code: string) {
    var trimmed := Trim(code);
    trimmed == "questionnaire_required" || trimmed == "vacancy_test_required" ||
    trimmed == "platform_validation_required"
  }

  predicate ClosedCode(code: string) {
    code == "vacancy_closed" || code == "response_impossible"
  }

  function Failing(category: Category): OpError {
    OpError(category, "", true)
  }

  // What a failed submission is judged by: anything but a valid operation error counts as a
  // permanent failure.
  function Judged(cause: OpError): OpError {
    if cause.OpError? && cause.valid then cause else Failing(Permanent)
  }

  // The outcome of the call is unknown: a valid operation error of that category, unless it
  // says that the vacancy is closed.
  predicate Unknown(cause: OpError) {
    cause.OpError? && cause.valid && cause.category == Ambiguous &&
    cause.code != "vacancy_closed" && cause.code != "response_impossible"
  }

  predicate InCategory(error: OpError, category: Category) {
    error.OpError? && error.category == category
  }

  // The application a step works on. Others act on any.
  ghost predicate Concerns(s: Step, id: string) {
    match s
    case Store(a) => a.id == id
    case Reserve(k, _, _) => k == id
    case Commit(k) => k == id
    case Release(k) => k == id
    case CallPlatform(k) => k == id
    case CallBrowser(k) => k == id
    case _ => true
  }

  // Others may have sent the application back or found its vacancy closed meanwhile. A
  // copy they saved may be old: only the status is sure.
  ghost predicate MayHaveBeenSentBack(a: App, stored: App) {
    stored == a ||
    (stored.id == a.id && stored.status == Ready &&
     a.status in {WaitingValidation, WaitingApproval, Failed, Skipped}) ||
    (stored.id == a.id && stored.status == Skipped && a.status == WaitingValidation)
  }

  // What others leave alone, as far as one application can tell.
  ghost predicate Undisturbed(d: Desk, d': Desk, id: string) {
    d' == d.(apps := d'.apps, copies := d'.copies) && d'.apps.Keys == d.apps.Keys &&
    (id in d.apps ==> MayHaveBeenSentBack(d.apps[id], d'.apps[id]))
  }

  // The record was stored with this status; others may have acted since.
  ghost predicate Reached(d: Desk, a: App, to: Status) {
    a.id in d.apps &&
    ((d.apps[a.id].status == to && d.apps[a.id].attempts == a.attempts) ||
     (to in {WaitingValidation, WaitingApproval, Failed, Skipped} && d.apps[a.id].status == Ready) ||
     (to == WaitingValidation && d.apps[a.id].status == Skipped))
  }

  // It was stored so, or not at all.
  ghost predicate Ended(d: Desk, a: App, to: Status) {
    Reached(d, a, to) || Reached(d, a, a.status)
  }

  // A validation demand skips or parks, by its own code or the fallback.
  function DemandStatus(plan: Plan, demanded: string, fallbackCode: string): Status {
    var code := if Trim(demanded) != "" then Trim(demanded) else fallbackCode;
    if plan.skipValidation && SkippableCode(code) then Skipped else WaitingValidation
  }

  // Where a failed submission leaves the application.
  function StatusAfter(plan: Plan, cause: OpError): Status {
    var judged := Judged(cause);
    if ClosedCode(judged.code) then Skipped
    else match judged.category
      case Ambiguous => PendingReconcile
      case ValidationRequired => DemandStatus(plan, judged.code, "platform_validation_required")
      case ConfirmationRequired => DemandStatus(plan, judged.code, "captcha_required")
      case Temporary => Ready
      case RateLimited => Ready
      case QuotaExceeded => Ready
      case Unauthorized => Ready
      case _ => Failed
  }

  // What counts as a failure of a submission.
  function FailureIn(answer: Result<Submission, OpError>): Option<OpError> {
    match answer
    case Err(cause) => Some(cause)
    case Ok(s) => if !s.negotiation && !s.applied && !s.alreadyApplied then Some(Foreign) else None
  }

  // What is reported of a failed submission, if it is not settled quietly.
  function ReportAfter(plan: Plan, cause: OpError): Option<OpError> {
    if StatusAfter(plan, cause) in {PendingReconcile, Ready, Failed} then Some(Judged(cause)) else None
  }

  // Where each failure leaves the application: an unknown outcome, and nothing else, stays
  // open; the failures that may pass, and no others, make it ready again; it is skipped if
  // the vacancy is closed, or if it demands a test and such vacancies are to be skipped; it
  // waits for an operator if it demands anything else; and every other failure is final.
  lemma FailuresTold(plan: Plan, cause: OpError)
    ensures
      var judged := if cause.OpError? && cause.valid then cause else OpError(Permanent, "", true);
      var closed := judged.code == "vacancy_closed" || judged.code == "response_impossible";
      var demanded := judged.category == ValidationRequired || judged.category == ConfirmationRequired;
      var code := if Trim(judged.code) != "" then Trim(judged.code)
        else if judged.category == ConfirmationRequired then "captcha_required" else "platform_validation_required";
      var test := code == "questionnaire_required" || code == "vacancy_test_required" ||
        code == "platform_validation_required";
      var to := StatusAfter(plan, cause);
      (to == PendingReconcile <==> !closed && judged.category == Ambiguous) &&
      (to == Ready <==> !closed && judged.category in {Temporary, RateLimited, QuotaExceeded, Unauthorized}) &&
      (to == Skipped <==> closed || (demanded && plan.skipValidation && test)) &&
      (to == WaitingValidation <==> !closed && demanded && !(plan.skipValidation && test)) &&
      (to == Failed <==> !closed && judged.category in {Permanent, Unsupported, Conflict}) &&
      ReportAfter(plan, cause) == (if closed || demanded then None else Some(judged))
  {
    hide Trim;
    TrimTwice(Judged(cause).code);
    FallbacksTrimmed();
  }

  lemma FallbacksTrimmed()
    ensures Trim("captcha_required") == "captcha_required"
    ensures Trim("platform_validation_required") == "platform_validation_required"
  {
    TrimmedWord("captcha_required");
    TrimmedWord("platform_validation_required");
  }

  lemma TrimmedWord(s: string)
    requires s != "" && !IsSpace(s[0]) && !IsSpace(s[|s| - 1])
    ensures Trim(s) == s
  {
    TrimLeftShape(s);
    TrimRightShape(s);
  }

  // What becomes of an application whose vacancy cannot be loaded, if anything.
  function StatusIfMissing(missing: OpError): Option<Status> {
    if !missing.OpError? || !missing.valid then None
    else if missing.code == "vacancy_closed" then Some(Skipped)
    else if missing.category == Permanent then Some(Failed)
    else None
  }

  // Where a decision before the attempt leaves the application, if it ends there.
  function StatusDecided(plan: Plan, outcome: Outcome, code: string): Option<Status> {
    match outcome
    case Apply => None
    case Skip => Some(Skipped)
    case Review => Some(if plan.skipValidation && SkippableCode(code) then Skipped else WaitingValidation)
  }

  // A preparation needs a code, a reason, and the digest of the very message it stores.
  predicate Recordable(d: Decision) {
    !Blank(d.code) && !Blank(d.reason) &&
    (d.provenance == Unrecorded || d.provenance == Recorded(true, Trim(d.message)))
  }

  // The worker's copy with the decision recorded.
  function Prepared(a: App, d: Decision, now: nat): App {
    a.(decision := Trim(d.code), reason := Trim(d.reason), resumeId := Trim(d.resume), message := Trim(d.message),
      provenance := d.provenance, prepared := true, updatedAt := now)
  }

  // Where an invocation ends that goes no further than the vacancy: closed ones are skipped
  // and permanent failures final; a decision to skip skips, and one to ask asks, unless it
  // asks for a test and such vacancies are to be skipped.
  lemma PreparationsTold(plan: Plan, missing: OpError, outcome: Outcome, code: string)
    ensures StatusIfMissing(missing) == Some(Skipped) <==>
      missing.OpError? && missing.valid && missing.code == "vacancy_closed"
    ensures StatusIfMissing(missing) == Some(Failed) <==>
      missing.OpError? && missing.valid && missing.category == Permanent && missing.code != "vacancy_closed"
    ensures StatusIfMissing(missing) in {None, Some(Skipped), Some(Failed)}
    ensures StatusDecided(plan, outcome, code).None? <==> outcome == Apply
    ensures StatusDecided(plan, outcome, code) == Some(Skipped) <==>
      outcome == Skip ||
      (outcome == Review && plan.skipValidation &&
       Trim(code) in {"questionnaire_required", "vacancy_test_required", "platform_validation_required"})
    ensures StatusDecided(plan, outcome, code) in {None, Some(Skipped), Some(WaitingValidation)}
  {
    hide Trim;
  }

  // Whether a worker may still enter an attempt from this status.
  predicate Startable(s: Status) {
    s == New || s == Preparing || s == Ready || s == WaitingValidation
  }

  // No tailoring of the application is under way but one that is submitting.
  ghost predicate OnlySubmitting(w: TailoringRuns.World, id: string) {
    forall k :: k in w.records && w.records[k].applicationId == id ==>
      w.records[k].status == T.Submitting || w.records[k].status == T.Restored
  }

  // A platform call made for a plan with a tailoring: the application, the world of the
  // tailorings it was made in, by its place in their history, the tailoring applied before
  // it, and the overrides that one was made with.
  datatype Sight = Sight(id: string, at: nat, applied: Option<T.Record>, overrides: seq<O.Override>)

  ghost predicate AllSeen(sights: seq<Sight>, worlds: seq<TailoringRuns.World>) {
    forall i :: 0 <= i < |sights| ==> sights[i].at < |worlds| && SeenIn(sights[i], worlds[sights[i].at])
  }

  // Only the applied tailoring is under way for the application, and it carries the overrides.
  ghost predicate SeenIn(sight: Sight, w: TailoringRuns.World) {
    OnlySubmitting(w, sight.id) &&
    (sight.applied.Some? ==>
      Applies(w, sight.id, sight.applied.value, sight.overrides) &&
      w.records[sight.applied.value.id].status == T.Submitting)
  }

  // The tailoring is under way for the application and carries the overrides.
  ghost predicate Applies(w: TailoringRuns.World, id: string, r: T.Record, overrides: seq<O.Override>) {
    r.id in w.records && T.SameInputs(r, w.records[r.id]) && r.applicationId == id &&
    (w.records[r.id].status == T.Applied || w.records[r.id].status == T.Submitting) && Carries(r, overrides)
  }

  ghost predicate Carries(r: T.Record, overrides: seq<O.Override>) {
    forall j :: 0 <= j < |overrides| ==>
      overrides[j].path in r.allowedPaths && PointerValue(r.tailored, overrides[j].path) == Some(overrides[j].value)
  }

  // What was applied in this invocation still is.
  ghost predicate StillApplies(heard: Heard, w: TailoringRuns.World, id: string) {
    heard.tailored.Some? && heard.tailored.value.Some? ==>
      Applies(w, id, heard.tailored.value.value, heard.overrides)
  }

  // What a call adds to the sights, if it is one for a tailored plan.
  ghost predicate Sighted(before: seq<Sight>, after: seq<Sight>, id: string, called: bool, heard: Heard) {
    before <= after && |after| == |before| + (if called then 1 else 0) &&
    (called ==>
      after[|before|].id == id && after[|before|].overrides == heard.overrides &&
      heard.tailored == Some(after[|before|].applied))
  }

  lemma TailorsCarries(r: T.Record, seen: Json, allowedPaths: seq<string>, overrides: seq<O.Override>)
    requires TailoringCoordinator.Tailors(r, seen, allowedPaths, overrides)
    ensures Carries(r, overrides)
  {
    SameMultisetSameElements(SortBy(allowedPaths, Identity), allowedPaths);
  }

  lemma StillSeen(sights: seq<Sight>, before: seq<TailoringRuns.World>, after: seq<TailoringRuns.World>)
    requires AllSeen(sights, before) && before <= after
    ensures AllSeen(sights, after)
  {
  }

  // No tailoring of the application is under way.
  ghost predicate AllRestored(w: TailoringRuns.World, id: string) {
    forall k :: k in w.records && w.records[k].applicationId == id ==> w.records[k].status == T.Restored
  }

  // A step about one application leaves the budget, the calls and, but for what others save,
  // the record of every other alone.
  lemma OtherUntouchedStep(d: Desk, d': Desk, s: Step, id: string, other: string)
    requires Next(d, d', s) && Concerns(s, id) && other != id
    ensures other in d'.ledger <==> other in d.ledger
    ensures other in d.ledger ==> d'.ledger[other] == d.ledger[other]
    ensures other in d.apps ==> other in d'.apps
    ensures other in d.apps && d.apps[other].id == other ==> MayHaveBeenSentBack(d.apps[other], d'.apps[other])
  {
    hide StoreAllowed;
  }

  lemma OtherNotCalled(d: Desk, d': Desk, s: Step, id: string, other: string)
    requires Next(d, d', s) && Concerns(s, id) && other != id
    ensures AttemptsCalled(d'.calls, other) == AttemptsCalled(d.calls, other)
  {
    if s.CallPlatform? {
      assert d'.calls[..|d'.calls| - 1] == d.calls;
    }
  }

  // A whole invocation leaves every other application alone: its budget, its calls
  // and, but for what others save, its record.
  lemma {:induction false} OthersUntouched(desks: seq<Desk>, steps: seq<Step>, i: nat, j: nat, id: string,
      other: string)
    requires IsRun(desks, steps) && i <= j < |desks| && other != id
    requires forall k :: i <= k < j ==> Concerns(steps[k], id)
    ensures other in desks[j].ledger <==> other in desks[i].ledger
    ensures other in desks[i].ledger ==> desks[j].ledger[other] == desks[i].ledger[other]
    ensures AttemptsCalled(desks[j].calls, other) == AttemptsCalled(desks[i].calls, other)
    ensures other in desks[i].apps ==> other in desks[j].apps
    ensures other in desks[i].apps && desks[i].apps[other].id == other ==>
      MayHaveBeenSentBack(desks[i].apps[other], desks[j].apps[other])
  {
    if i < j {
      OthersUntouched(desks, steps, i, j - 1, id, other);
      OtherUntouchedStep(desks[j - 1], desks[j], steps[j - 1], id, other);
      OtherNotCalled(desks[j - 1], desks[j], steps[j - 1], id, other);
    }
  }

  lemma RevisionUndisturbed(d: Desk, copy: App, after: App, id: string)
    requires copy.id in d.apps && d.apps[copy.id].status == copy.status && Revision(copy, after)
    requires id in d.apps ==> d.apps[id].id == id
    ensures Undisturbed(d, d.(apps := d.apps[copy.id := after]), id)
  {
  }

  lemma StillUndisturbed(d: Desk, d1: Desk, d2: Desk, id: string)
    ensures Undisturbed(d, d, id)
    ensures Undisturbed(d, d1, id) && Undisturbed(d1, d2, id) ==> Undisturbed(d, d2, id)
  {
  }

  // ---- how an invocation ends if nothing goes wrong ----

  // What an invocation leaves: the desk, what it was told, and the tailorings.
  datatype Scene = Scene(desk: Desk, heard: Heard, tailorings: TailoringRuns.World)

  // Nothing of the attempt is left: no reservation, no tailoring under way.
  ghost predicate Closed(at: Scene, id: string) {
    !Held(at.desk.ledger, id) && AllRestored(at.tailorings, id)
  }

  predicate AsksBrowser(judged: OpError) {
    judged.OpError? && judged.category == ConfirmationRequired && !ClosedCode(judged.code)
  }

  // What becomes of a failed submission if nothing else goes wrong.
  ghost predicate FailedAs(at: Scene, id: string, plan: Plan, reported: OpError, error: Option<OpError>) {
    id in at.desk.apps && (at.heard.browser.Some? <==> AsksBrowser(Judged(reported))) &&
    var a := at.desk.apps[id];
    if at.heard.browser.Some? && at.heard.browser.value.Came? then
      error.None? && Closed(at, id) &&
      a.status == if at.heard.browser.value.outcome == Done then Submitted else WaitingValidation
    else
      a.status == StatusAfter(plan, reported) && error == ReportAfter(plan, reported) &&
      (a.status != PendingReconcile ==> Closed(at, id)) &&
      (a.status == Failed ==> a.failure == Some(Judged(reported).category)) &&
      (a.status == Ready && Judged(reported).category == QuotaExceeded ==> a.failure == Some(QuotaExceeded))
  }

  // What becomes of an answered attempt if nothing goes wrong afterwards.
  ghost predicate ConcludedAs(at: Scene, id: string, plan: Plan, answer: Result<Submission, OpError>,
      error: Option<OpError>) {
    match FailureIn(answer)
    case Some(cause) => FailedAs(at, id, plan, cause, error)
    case None =>
      error.None? && id in at.desk.apps && Closed(at, id) &&
      if answer.value.alreadyApplied then at.desk.apps[id].status == Skipped
      else at.desk.apps[id].status == Submitted && id in at.desk.ledger &&
           at.desk.ledger[id].state == Committed
  }

  // The worker has decided to apply, and can record why.
  ghost predicate GoesOn(at: Scene) {
    at.heard.vacancy == Some(None) && at.heard.decision.Some? && at.heard.decision.value.outcome == Apply &&
    Recordable(at.heard.decision.value)
  }

  // How an invocation ends that goes no further than preparing, if nothing goes wrong.
  ghost predicate EndedBefore(at: Scene, loaded: App, plan: Plan, error: Option<OpError>) {
    loaded.id in at.desk.apps && at.heard.vacancy.Some? &&
    match at.heard.vacancy.value
    case Some(missing) => MissedAs(at, loaded, missing, error)
    case None => at.heard.decision.Some? && DecidedAs(at, loaded, plan, at.heard.decision.value, error)
  }

  ghost predicate MissedAs(at: Scene, loaded: App, missing: OpError, error: Option<OpError>) {
    loaded.id in at.desk.apps &&
    match StatusIfMissing(missing)
    case None => error == Some(missing) && at.desk.apps[loaded.id] == loaded
    case Some(to) =>
      at.desk.apps[loaded.id].status == to && error == if to == Skipped then None else Some(missing)
  }

  ghost predicate DecidedAs(at: Scene, loaded: App, plan: Plan, decision: Decision, error: Option<OpError>) {
    loaded.id in at.desk.apps &&
    if !Recordable(decision) then error == Some(Foreign) && at.desk.apps[loaded.id] == loaded
    else
      match StatusDecided(plan, decision.outcome, decision.code)
      case None => false
      case Some(to) => error.None? && at.desk.apps[loaded.id].status == to
  }

  // How the budget is asked, if nothing goes wrong: granted, or refused with the
  // application stored as ready.
  ghost predicate AskedBudget(at: Scene, loaded: App, plan: Plan, ledger: map<string, Reservation>,
      error: Option<OpError>) {
    loaded.id in at.desk.apps &&
    if plan.dailyLimit < 1 then error == Some(Failing(Temporary)) && at.desk.apps[loaded.id].status == Ready
    else
      at.heard.window.Some? &&
      match ReserveOutcome(ledger, loaded.id, at.heard.window.value, plan.dailyLimit)
      case Granted => error.None?
      case Exhausted => error == Some(Failing(QuotaExceeded)) && at.desk.apps[loaded.id].status == Ready
      case Refused => error == Some(Failing(Temporary)) && at.desk.apps[loaded.id].status == Ready
  }

  // How any other redelivery ends, if nothing goes wrong.
  ghost predicate FinishedAs(at: Scene, a: App, error: Option<OpError>) {
    a.id in at.desk.apps &&
    match a.status
    case PendingReconcile =>
      at.heard.found.Some? && error.None? &&
      at.desk.apps[a.id].status == if at.heard.found.value then Submitted else Failed
    case Submitting => error == Some(Failing(Ambiguous)) && at.desk.apps[a.id].status == PendingReconcile
    case _ => error.None? && at.desk.apps[a.id] == a
  }

  // How an invocation ends that acts on a prepared application, if nothing goes wrong.
  ghost predicate ActedAs(at: Scene, loaded: App, plan: Plan, before: Desk, ledger: map<string, Reservation>,
      error: Option<OpError>) {
    loaded.id in at.desk.apps &&
    match plan.mode
    case DryRunMode =>
      error.None? && at.desk.apps[loaded.id].status == DryRun && at.desk.calls == before.calls
    case ApprovalMode =>
      error.None? && at.desk.apps[loaded.id].status == WaitingApproval && at.desk.calls == before.calls
    case SubmitMode =>
      if plan.dailyLimit >= 1 && at.heard.window.Some? &&
        ReserveOutcome(ledger, loaded.id, at.heard.window.value, plan.dailyLimit) == Granted
      then
        at.desk.calls != before.calls && at.heard.answer.Some? &&
        ConcludedAs(at, loaded.id, plan, at.heard.answer.value, error)
      else
        AskedBudget(at, loaded, plan, ledger, error) && at.desk.calls == before.calls
  }

  // How an invocation ends that is taken further, if nothing goes wrong.
  ghost predicate ProceededAs(at: Scene, loaded: App, preparing: bool, before: Desk, ledger: map<string, Reservation>,
      error: Option<OpError>) {
    at.heard.plan.Some? && loaded.id in at.desk.apps &&
    match at.heard.plan.value
    case Err(unresolved) =>
      at.desk.calls == before.calls &&
      if InCategory(unresolved, ValidationRequired) && preparing
      then error.None? && at.desk.apps[loaded.id].status == WaitingValidation
      else error == Some(unresolved) && at.desk.apps[loaded.id] == loaded
    case Ok(plan) =>
      if !loaded.prepared && !GoesOn(at) then EndedBefore(at, loaded, plan, error) && at.desk.calls == before.calls
      else ActedAs(at, loaded, plan, before, ledger, error)
  }

  // How an invocation ends if nothing goes wrong.
  ghost predicate HandledAs(at: Scene, a: App, before: Desk, error: Option<OpError>) {
    if !TakenFurther(a) then FinishedAs(at, a, error) && at.desk.calls == before.calls
    else
      ProceededAs(at, a, a.status != Ready, before,
        if a.status == WaitingValidation then Finished(before.ledger, a.id, Released) else before.ledger, error)
  }

  // An answer that leaves the outcome open leaves the attempt open and funded.
  ghost predicate OpenIfUnknown(at: Scene, id: string) {
    at.heard.answer.Some? && at.heard.answer.value.Err? && Unknown(at.heard.answer.value.error) ==>
      id in at.desk.apps && InFlight(at.desk.apps[id].status) && Held(at.desk.ledger, id)
  }

  // A redelivery goes on from what was not yet started, and from a demand for validation
  // that an operator has cleared.
  predicate TakenFurther(a: App) {
    a.status in {New, Preparing, Ready} || (a.status == WaitingValidation && !a.prepared)
  }

  // Main result on answers: what an invocation makes of each answer of the platform if
  // nothing else goes wrong. An unknown outcome stays open for reconciliation, and only a
  // failure that may pass makes the application ready again.
  lemma AnswersTold(at: Scene, a: App, before: Desk, error: Option<OpError>)
    requires HandledAs(at, a, before, error) && at.desk.calls != before.calls
    ensures at.heard.answer.Some? && a.id in at.desk.apps
    ensures at.heard.answer.value.Ok? ==>
      var sent, status := at.heard.answer.value.value, at.desk.apps[a.id].status;
      (sent.alreadyApplied ==> status == Skipped && error.None? && Closed(at, a.id)) &&
      (!sent.alreadyApplied && (sent.applied || sent.negotiation) ==>
        status == Submitted && error.None? && Closed(at, a.id) && a.id in at.desk.ledger) &&
      (!sent.alreadyApplied && !sent.applied && !sent.negotiation ==>
        status == Failed && error.Some? && Closed(at, a.id))
    ensures at.heard.answer.value.Err? ==>
      var cause, status := at.heard.answer.value.error, at.desk.apps[a.id].status;
      var closed := cause.OpError? && (cause.code == "vacancy_closed" || cause.code == "response_impossible");
      (Unknown(cause) ==> status == PendingReconcile && error == Some(cause)) &&
      (cause.OpError? && cause.valid && closed ==> status == Skipped && error.None? && Closed(at, a.id)) &&
      (cause.OpError? && cause.valid && !closed &&
        cause.category in {Temporary, RateLimited, QuotaExceeded, Unauthorized} ==>
          status == Ready && error == Some(cause) && Closed(at, a.id)) &&
      (cause.OpError? && cause.valid && !closed && cause.category in {Permanent, Unsupported, Conflict} ==>
        status == Failed && error == Some(cause) && Closed(at, a.id)) &&
      (!cause.OpError? || !cause.valid ==> status == Failed && error.Some? && Closed(at, a.id)) &&
      (cause.OpError? && cause.valid && !closed && cause.category == ValidationRequired ==>
        status in {Skipped, WaitingValidation} && error.None? && Closed(at, a.id)) &&
      (cause.OpError? && cause.valid && !closed && cause.category == ConfirmationRequired ==>
        status in {Submitted, Skipped, WaitingValidation} && error.None? && Closed(at, a.id))
  {
    hide Trim, AllRestored;
  }

  // Main result on calls: if nothing goes wrong, the platform is called exactly for an
  // application that is new, being prepared, ready, or to be prepared again, under a plan
  // that submits, once it is prepared or a decision to apply can be recorded, and when the
  // day's budget has room.
  lemma CallsTold(at: Scene, a: App, before: Desk, error: Option<OpError>)
    requires HandledAs(at, a, before, error)
    ensures at.desk.calls != before.calls <==>
      (a.status == New || a.status == Preparing || a.status == Ready ||
       (a.status == WaitingValidation && !a.prepared)) &&
      at.heard.plan.Some? && at.heard.plan.value.Ok? && at.heard.plan.value.value.mode == SubmitMode &&
      (a.prepared || ToldToApply(at.heard)) &&
      at.heard.window.Some? && at.heard.plan.value.value.dailyLimit >= 1 &&
      ReserveOutcome(if a.status == WaitingValidation then Finished(before.ledger, a.id, Released) else before.ledger,
        a.id, at.heard.window.value, at.heard.plan.value.value.dailyLimit) == Granted
  {
    hide Trim, AllRestored, ReserveOutcome, Finished;
  }

  predicate ToldToApply(heard: Heard) {
    heard.vacancy == Some(None) && heard.decision.Some? && CanApply(heard.decision.value)
  }

  predicate CanApply(d: Decision) {
    d.outcome == Apply && Trim(d.code) != "" && Trim(d.reason) != "" &&
    (d.provenance.Recorded? ==> d.provenance.valid && d.provenance.digestOf == Trim(d.message))
  }

  // How the other deliveries end if nothing goes wrong: those of an application that is not
  // taken further,
  lemma RedeliveriesTold(at: Scene, a: App, before: Desk, error: Option<OpError>)
    requires HandledAs(at, a, before, error)
    ensures a.status == Submitting ==>
      a.id in at.desk.apps && at.desk.apps[a.id].status == PendingReconcile &&
      error == Some(OpError(Ambiguous, "", true))
    ensures a.status == PendingReconcile ==>
      a.id in at.desk.apps && at.heard.found.Some? && error.None? &&
      at.desk.apps[a.id].status == if at.heard.found.value then Submitted else Failed
    ensures a.status in {Submitted, Failed, Skipped, DryRun, WaitingApproval} ==>
      a.id in at.desk.apps && at.desk.apps[a.id] == a && error.None?
    ensures a.status == WaitingValidation && a.prepared ==>
      a.id in at.desk.apps && at.desk.apps[a.id] == a && error.None?
  {
    hide ProceededAs;
  }

  // and those of one that is, but is not submitted.
  lemma EndingsTold(at: Scene, a: App, before: Desk, error: Option<OpError>)
    requires HandledAs(at, a, before, error)
    requires a.status in {New, Preparing, Ready} || (a.status == WaitingValidation && !a.prepared)
    ensures at.heard.plan.Some? && a.id in at.desk.apps
    ensures at.heard.plan.value.Err? ==>
      var e := at.heard.plan.value.error;
      if e.OpError? && e.category == ValidationRequired && a.status != Ready
      then at.desk.apps[a.id].status == WaitingValidation && error.None?
      else at.desk.apps[a.id] == a && error == Some(e)
    ensures at.heard.plan.value.Ok? && !a.prepared ==> at.heard.vacancy.Some?
    ensures at.heard.plan.value.Ok? && !a.prepared && at.heard.vacancy.value.Some? ==>
      var missing := at.heard.vacancy.value.value;
      if missing.OpError? && missing.valid && missing.code == "vacancy_closed"
      then at.desk.apps[a.id].status == Skipped && error.None?
      else if missing.OpError? && missing.valid && missing.category == Permanent
      then at.desk.apps[a.id].status == Failed && error == Some(missing)
      else at.desk.apps[a.id] == a && error == Some(missing)
    ensures at.heard.plan.value.Ok? && (a.prepared || ToldToApply(at.heard)) ==>
      (at.heard.plan.value.value.mode == DryRunMode ==> at.desk.apps[a.id].status == DryRun && error.None?) &&
      (at.heard.plan.value.value.mode == ApprovalMode ==>
        at.desk.apps[a.id].status == WaitingApproval && error.None?)
  {
    hide Trim, AllRestored, ReserveOutcome, Finished, ConcludedAs;
  }

  // A decision that is not to apply is stored as its status.
  lemma DeclinesTold(at: Scene, a: App, before: Desk, error: Option<OpError>)
    requires HandledAs(at, a, before, error)
    requires a.status in {New, Preparing, Ready} || (a.status == WaitingValidation && !a.prepared)
    requires at.heard.plan.Some? && at.heard.plan.value.Ok? && !a.prepared && at.heard.vacancy == Some(None)
    ensures at.heard.decision.Some? && a.id in at.desk.apps
    ensures
      var d, plan := at.heard.decision.value, at.heard.plan.value.value;
      CanApply(d.(outcome := Apply)) ==>
        (d.outcome == Skip ==> at.desk.apps[a.id].status == Skipped && error.None?) &&
        (d.outcome == Review ==>
          error.None? && at.desk.apps[a.id].status ==
            if plan.skipValidation && Trim(d.code) in
              {"questionnaire_required", "vacancy_test_required", "platform_validation_required"}
            then Skipped else WaitingValidation)
  {
    hide Trim, AllRestored, ReserveOutcome, Finished, ConcludedAs;
  }

  // What was sent is kept: the words prepared before, or those just decided on.
  ghost predicate Worded(at: Scene, a: App) {
    a.id in at.desk.apps &&
    var sent := at.desk.apps[a.id];
    if a.prepared then SameWords(sent, a)
    else
      at.heard.decision.Some? && sent.prepared && sent.message == Trim(at.heard.decision.value.message) &&
      sent.resumeId == Trim(at.heard.decision.value.resume) && sent.provenance == at.heard.decision.value.provenance
  }

  // Forgetting what the process remembers changes none of that.
  lemma HandledStays(at: Scene, after: Scene, a: App, before: Desk, error: Option<OpError>)
    requires after == at.(desk := at.desk.(current := None, lastError := None))
    ensures HandledAs(at, a, before, error) ==> HandledAs(after, a, before, error)
    ensures OpenIfUnknown(at, a.id) ==> OpenIfUnknown(after, a.id)
    ensures Worded(at, a) ==> Worded(after, a)
  {
  }

  lemma GrantHolds(d: Desk, id: string, window: nat, limit: nat)
    requires id in d.apps && Funded(d, id) && d.apps[id].status != Submitted
    ensures ReserveOutcome(d.ledger, id, window, limit) == Granted ==>
      Held(AfterReserve(d.ledger, id, window, limit), id)
  {
    GrantedExactly(d.ledger, id, window, limit);
  }

  lemma NothingToCarry(r: T.Record)
    ensures Carries(r, [])
  {
  }

  lemma AppliesStill(told: Heard, heard: Heard, before: TailoringRuns.World, after: TailoringRuns.World, id: string)
    requires NoNews(told, heard) && StillApplies(told, before, id)
    requires TailoringCoordinator.StaysUnderWay(before, after)
    ensures OnlySubmitting(after, id) ==> StillApplies(heard, after, id)
  {
  }

  class ApplicationHandler {
    // No resolved plan grants more than this per window.
    const highestLimit: nat
    var desk: Desk
    ghost var desks: seq<Desk>
    ghost var steps: seq<Step>
    // The application under way, and the history before its invocation.
    ghost var subject: string
    ghost var desksBefore: seq<Desk>
    ghost var stepsBefore: seq<Step>
    const tailoring: TailoringCoordinator.Coordinator
    ghost var sights: seq<Sight>
    ghost var heard: Heard

    constructor (highestLimit: nat, desk: Desk, tailoring: TailoringCoordinator.Coordinator)
      requires WellKept(desk) && WithinLimit(desk.ledger, highestLimit) && desk.current.None? && tailoring.Valid()
      ensures Valid() && this.desk == desk && desks == [desk] && this.highestLimit == highestLimit
      ensures this.tailoring == tailoring && sights == []
    {
      this.tailoring := tailoring;
      sights := [];
      heard := NothingYet;
      this.highestLimit := highestLimit;
      this.desk := desk;
      desks := [desk];
      steps := [];
      subject := "";
      desksBefore := [desk];
      stepsBefore := [];
    }

    // The recorded history is a run of the step system that starts within the budget,
    // the current invocation has worked on its subject only, and each platform call of a
    // tailored plan was made with no tailoring of the application under way but one that
    // is submitting.
    ghost predicate Valid()
      reads this`desk, this`desks, this`steps, this`subject, this`desksBefore, this`stepsBefore, this`sights,
        tailoring
    {
      tailoring.Valid() && AllSeen(sights, tailoring.worlds) &&
      IsRun(desks, steps) && desks[|desks| - 1] == desk &&
      WellKept(desks[0]) && WithinLimit(desks[0].ledger, highestLimit) &&
      LimitsWithin(steps, highestLimit) &&
      desksBefore <= desks && stepsBefore <= steps &&
      forall i :: |stepsBefore| <= i < |steps| ==> Concerns(steps[i], subject)
    }

    lemma Kept()
      requires Valid()
      ensures WellKept(desk)
    {
      WellKeptRun(desks, steps, |desks| - 1);
    }

    // What the history says about the application under way.
    lemma SubjectKept()
      requires Valid() && subject in desk.apps
      ensures desk.apps[subject].id == subject && Funded(desk, subject)
    {
      Kept();
      assert Funded(desk, subject);
    }

    // Main result on tailored submissions: at each platform call made for a tailored plan,
    // with considerate third parties, whatever is under way of the application's tailorings
    // is the saga under way, the account shows its tailored values, and beside them it is
    // as third parties alone would have it.
    lemma TailoredCallsShowTailored(i: nat, key: string)
      requires Valid() && i < |sights|
      requires TailoringSafety.Considerate(tailoring.worlds, tailoring.steps) && tailoring.worlds[0].active.None?
      requires key in tailoring.worlds[sights[i].at].records
      requires tailoring.worlds[sights[i].at].records[key].applicationId == sights[i].id
      requires tailoring.worlds[sights[i].at].records[key].status != T.Restored
      ensures tailoring.worlds[sights[i].at].active == Some(key)
      ensures
        var w := tailoring.worlds[sights[i].at];
        TailoringSafety.ShowsTailored(w.records[key], w.remote) &&
        Remote.SameOutside(w.remote, TailoringSafety.Theirs(tailoring.worlds, tailoring.steps, sights[i].at),
          w.records[key].allowedPaths)
    {
      var at := sights[i].at;
      assert OnlySubmitting(tailoring.worlds[at], sights[i].id);
      TailoringSafety.SagaSafety(tailoring.worlds, tailoring.steps, at);
      TailoringSafety.SubmittingShowsTailored(tailoring.worlds, tailoring.steps, at, key);
    }

    // So the account then holds every override the applied tailoring was made with.
    lemma TailoredCallsHoldOverrides(i: nat, j: nat)
      requires Valid() && i < |sights| && sights[i].applied.Some? && j < |sights[i].overrides|
      requires TailoringSafety.Considerate(tailoring.worlds, tailoring.steps) && tailoring.worlds[0].active.None?
      ensures PointerValue(tailoring.worlds[sights[i].at].remote, sights[i].overrides[j].path) ==
        Some(sights[i].overrides[j].value)
    {
      var r, w := sights[i].applied.value, tailoring.worlds[sights[i].at];
      assert SeenIn(sights[i], w) && Carries(r, sights[i].overrides);
      TailoredCallsShowTailored(i, r.id);
      var path := sights[i].overrides[j].path;
      assert path in r.allowedPaths;
      var k :| 0 <= k < |r.allowedPaths| && r.allowedPaths[k] == path;
      assert w.records[r.id].allowedPaths[k] == path;
    }

    // Whatever is left of the account once no tailoring is under way is what third parties
    // have made of it.
    lemma NothingLeftBehind()
      requires Valid() && tailoring.world.active.None? && tailoring.worlds[0].active.None?
      requires TailoringSafety.Considerate(tailoring.worlds, tailoring.steps)
      ensures tailoring.world.remote ==
        TailoringSafety.Theirs(tailoring.worlds, tailoring.steps, |tailoring.worlds| - 1)
    {
      TailoringSafety.SagaSafety(tailoring.worlds, tailoring.steps, |tailoring.worlds| - 1);
    }

    ghost function Now(): Scene
      reads this`desk, this`heard, tailoring
    {
      Scene(desk, heard, tailoring.world)
    }

    // One durable effect.
    method Take(next: Desk, ghost step: Step)
      requires Valid() && Next(desk, next, step) && Concerns(step, subject)
      requires step.Reserve? ==> step.limit <= highestLimit
      modifies this`desk, this`desks, this`steps
      ensures Valid() && desk == next
      ensures desks == old(desks) + [next] && steps == old(steps) + [step]
    {
      desks := desks + [next];
      steps := steps + [step];
      desk := next;
    }

    // Somebody loads an application.
    method LoadCopy()
      requires Valid()
      modifies this`desk, this`desks, this`steps
      ensures Valid()
      ensures Undisturbed(old(desk), desk, subject)
      ensures SameRecord(old(desk), desk, subject)
    {
      hide Valid;
      var id: string := *;
      if id in desk.apps {
        Take(desk.(copies := desk.copies + {desk.apps[id]}), Load(id));
      }
    }

    // Somebody saves what he made of any copy loaded so far.
    method SaveCopy()
      requires Valid()
      modifies this`desk, this`desks, this`steps, this`heard
      ensures Valid()
      ensures Undisturbed(old(desk), desk, subject)
      ensures NoNews(old(heard), heard)
      ensures heard == old(heard) ==> SameRecord(old(desk), desk, subject)
    {
      hide Valid;
      if desk.copies == {} {
        return;
      }
      var copy :| copy in desk.copies;
      var after: App := *;
      if copy.id in desk.apps && desk.apps[copy.id].status == copy.status && Revision(copy, after) {
        if subject in desk.apps {
          SubjectKept();
        }
        if copy.id == subject {
          Trouble();
        }
        RevisionUndisturbed(desk, copy, after, subject);
        Take(desk.(apps := desk.apps[copy.id := after]), Revise(copy, after));
      }
    }

    // Others load applications, and save what they make of any copy they have loaded.
    method Interference()
      requires Valid()
      modifies this`desk, this`desks, this`steps, this`heard
      ensures Valid()
      ensures Undisturbed(old(desk), desk, subject)
      ensures NoNews(old(heard), heard)
      ensures heard.trouble == old(heard).trouble ==> SameRecord(old(desk), desk, subject)
    {
      hide Valid, Undisturbed;
      StillUndisturbed(desk, desk, desk, subject);
      var rounds := Anything();
      for i := 0 to rounds
        invariant Valid()
        invariant Undisturbed(old(desk), desk, subject) && NoNews(old(heard), heard)
        invariant heard == old(heard) ==> SameRecord(old(desk), desk, subject)
      {
        ghost var before := desk;
        LoadCopy();
        ghost var loaded := desk;
        SaveCopy();
        StillUndisturbed(before, loaded, desk, subject);
        StillUndisturbed(old(desk), before, desk, subject);
      }
    }

    // ---- environment ----

    ghost method Trouble()
      modifies this`heard
      ensures heard == old(heard).(trouble := old(heard).trouble + 1)
    {
      heard := heard.(trouble := heard.trouble + 1);
    }

    // The time, for the next transition of the application.
    method Clock(a: App) returns (now: nat)
      modifies this`heard
      ensures NoNews(old(heard), heard)
      ensures heard.trouble == 0 ==> Timely(now, a)
    {
      hide Valid;
      now := Anything();
      if !Timely(now, a) {
        Trouble();
      }
    }

    method Anything() returns (n: nat) {
      var value: int := *;
      n := if value < 0 then 0 else value;
    }

    // A call that leaves applications and budget alone: pacing, tailoring, records of
    // other kinds, captures.
    method Elsewhere() returns (error: Option<OpError>)
      requires Valid()
      modifies this`desk, this`desks, this`steps, this`heard
      ensures Valid()
      ensures Undisturbed(old(desk), desk, subject)
      ensures NoNews(old(heard), heard)
      ensures heard.trouble == 0 ==> error.None? && SameRecord(old(desk), desk, subject)
    {
      hide Valid;
      Interference();
      if * {
        return None;
      }
      var failure: OpError := *;
      error := Some(failure);
      Trouble();
    }

    // The plan of the application's profile, or why there is none.
    method ResolvePlan() returns (r: Result<Plan, OpError>)
      requires Valid()
      modifies this`desk, this`desks, this`steps, this`heard
      ensures Valid()
      ensures Undisturbed(old(desk), desk, subject)
      ensures r.Ok? ==> r.value.dailyLimit <= highestLimit
      ensures NoNews(old(heard).(plan := Some(r)), heard)
      ensures heard.trouble == 0 ==> SameRecord(old(desk), desk, subject)
    {
      hide Valid;
      Interference();
      var failure: OpError := *;
      var plan: Plan := *;
      if * {
        r := Err(failure);
      } else {
        r := Ok(if plan.dailyLimit > highestLimit then plan.(dailyLimit := highestLimit) else plan);
      }
      heard := heard.(plan := Some(r));
    }

    // The vacancy is read in full and stored; the error if that fails.
    method LoadVacancy() returns (missing: Option<OpError>)
      requires Valid()
      modifies this`desk, this`desks, this`steps, this`heard
      ensures Valid()
      ensures Undisturbed(old(desk), desk, subject)
      ensures NoNews(old(heard).(vacancy := Some(missing)), heard)
      ensures heard.trouble == 0 ==> SameRecord(old(desk), desk, subject)
    {
      hide Valid;
      Interference();
      missing := *;
      heard := heard.(vacancy := Some(missing));
    }

    // Preflight and the configured preparer decide on the vacancy.
    method AskDecision() returns (r: Result<Decision, OpError>)
      requires Valid()
      modifies this`desk, this`desks, this`steps, this`heard
      ensures Valid()
      ensures Undisturbed(old(desk), desk, subject)
      ensures r.Ok? ==>
        NoNews(old(heard).(decision := Some(r.value)), heard)
      ensures r.Err? ==> NoNews(old(heard), heard)
      ensures heard.trouble == 0 ==> r.Ok? && SameRecord(old(desk), desk, subject)
    {
      hide Valid;
      var undecided := Elsewhere();
      if undecided.Some? {
        return Err(undecided.value);
      }
      var decision: Decision := *;
      r := Ok(decision);
      heard := heard.(decision := Some(decision));
    }

    // ---- tailoring ----

    // Told of every failure, the handler knows no more than that it is one.
    method AsError(failure: TailoringCoordinator.Failure) returns (error: OpError)
    {
      error := *;
    }

    // Third parties edit the account.
    method AccountEdited()
      requires Valid()
      modifies tailoring
      ensures Valid() && tailoring.world == old(tailoring.world).(remote := tailoring.world.remote)
      ensures forall told, id ::
        StillApplies(told, old(tailoring.world), id) ==> StillApplies(told, tailoring.world, id)
      ensures forall id :: OnlySubmitting(old(tailoring.world), id) ==> OnlySubmitting(tailoring.world, id)
    {
      tailoring.Interference();
      StillSeen(sights, old(tailoring.worlds), tailoring.worlds);
    }

    method RestoreTailoring(id: string) returns (error: Option<OpError>)
      requires Valid()
      modifies tailoring, this`heard
      ensures Valid()
      ensures error.None? ==> AllRestored(tailoring.world, id)
      ensures NoNews(old(heard), heard)
      ensures heard.trouble == 0 ==> error.None?
    {
      hide TailoringCoordinator.EndedAs, TailoringCoordinator.Coordinator.Valid, AllSeen;
      var r := tailoring.Restore(id);
      StillSeen(sights, old(tailoring.worlds), tailoring.worlds);
      if r.Ok? {
        return None;
      }
      var failure := AsError(r.error);
      error := Some(failure);
      Trouble();
    }

    method BeginTailoringSubmit(id: string, plan: Plan) returns (error: Option<OpError>)
      requires Valid()
      modifies tailoring, this`heard
      ensures Valid()
      ensures error.None? && plan.tailored ==> OnlySubmitting(tailoring.world, id)
      ensures TailoringCoordinator.StaysUnderWay(old(tailoring.world), tailoring.world)
      ensures NoNews(old(heard), heard)
      ensures heard.trouble == 0 ==> error.None?
    {
      if !plan.tailored {
        return None;
      }
      hide TailoringCoordinator.SubmittedAs, TailoringCoordinator.Coordinator.Valid, AllSeen;
      var r := tailoring.BeginSubmit(id);
      StillSeen(sights, old(tailoring.worlds), tailoring.worlds);
      if r.Ok? {
        return None;
      }
      var failure := AsError(r.error);
      error := Some(failure);
      Trouble();
    }

    // The coordinator applies the tailoring. The overrides are those of a new saga.
    method ApplySaga(application: App, plan: Plan)
      returns (r: Result<Option<T.Record>, TailoringCoordinator.Failure>, ghost overrides: seq<O.Override>)
      requires Valid()
      modifies tailoring
      ensures Valid()
      ensures overrides == if tailoring.told.overrides.Some? then tailoring.told.overrides.value else []
      ensures r.Ok? && r.value.Some? ==> Applies(tailoring.world, application.id, r.value.value, overrides)
    {
      hide TailoringCoordinator.Tailors, TailoringCoordinator.PlannedAs, TailoringCoordinator.ResumedAs;
      hide AllSeen, Carries;
      hide TailoringCoordinator.Coordinator.Valid;
      r := tailoring.Apply(application.id, application.attempts, plan.allowedPaths);
      StillSeen(sights, old(tailoring.worlds), tailoring.worlds);
      overrides := [];
      if tailoring.told.overrides.Some? {
        overrides := tailoring.told.overrides.value;
        if r.Ok? && r.value.Some? {
          TailorsCarries(r.value.value, tailoring.told.seen.value.state, plan.allowedPaths, overrides);
        }
      } else if r.Ok? && r.value.Some? {
        NothingToCarry(r.value.value);
      }
    }

    method ApplyTailoring(application: App, plan: Plan) returns (error: Option<OpError>)
      requires Valid() && heard.tailored.None? && heard.overrides == []
      modifies tailoring, this`heard
      ensures Valid()
      ensures NoNews(old(heard).(tailored := heard.tailored, overrides := heard.overrides), heard)
      ensures error.None? ==>
        (plan.tailored <==> heard.tailored.Some?) && StillApplies(heard, tailoring.world, application.id)
      ensures heard.trouble == 0 ==> error.None?
    {
      hide Valid;
      if !plan.tailored {
        return None;
      }
      var unknown: bool := *;
      if unknown {
        // The stored vacancy cannot be read.
        var missing: OpError := *;
        Trouble();
        return Some(missing);
      }
      ghost var overrides;
      var r;
      r, overrides := ApplySaga(application, plan);
      if r.Ok? {
        heard := heard.(tailored := Some(r.value));
        heard := heard.(overrides := overrides);
        return None;
      }
      var failure := AsError(r.error);
      error := Some(failure);
      Trouble();
    }

    method Moving(application: App, to: Status, now: nat) returns (r: Option<App>)
      ensures r == if MayMove(application, to, now) then Some(Moved(application, to, now)) else None
    {
      hide Valid;
      var draft := new ApplicationDraft(application);
      var ok := draft.Transition(to, now);
      r := if ok then Some(draft.app) else None;
    }

    // Compare-and-swap on the stored status. It may also report a failure after the
    // record was stored.
    method SaveApplication(candidate: App, expected: Status) returns (ok: bool)
      requires Valid() && candidate.id == subject && candidate.id in desk.apps
      requires desk.apps[candidate.id].status == expected ==> StoreAllowed(desk, desk.apps[candidate.id], candidate)
      modifies this`desk, this`desks, this`steps, this`heard
      ensures Valid()
      ensures desk.calls == old(desk).calls && desk.browserCalls == old(desk).browserCalls &&
        desk.ledger == old(desk).ledger
      ensures desk.apps.Keys == old(desk).apps.Keys
      ensures ok ==> MayHaveBeenSentBack(candidate, desk.apps[candidate.id])
      ensures ok && candidate.status == Submitting ==>
        desk.current == Some(candidate.id) && !desk.called && !desk.browsed
      ensures MayHaveBeenSentBack(candidate, desk.apps[candidate.id]) ||
        MayHaveBeenSentBack(old(desk).apps[candidate.id], desk.apps[candidate.id])
      ensures NoNews(old(heard), heard)
      ensures heard.trouble == 0 ==> (ok <==> old(desk).apps[candidate.id].status == expected)
      ensures heard.trouble == 0 ==> desk.apps[candidate.id] == if ok then candidate else old(desk).apps[candidate.id]
    {
      hide Valid;
      if * {
        Interference();
        Trouble();
        return false;
      }
      if desk.apps[candidate.id].status != expected {
        return false;
      }
      Take(Stored(desk, candidate), Store(candidate));
      Interference();
      ok := *;
      if !ok {
        Trouble();
      }
    }

    method SettleBudget(id: string, target: LedgerState) returns (error: Option<OpError>)
      requires Valid() && id == subject && id in desk.apps && target != Reserved
      requires target == Committed ==> desk.apps[id].status == Submitted
      requires target == Released ==> !InFlight(desk.apps[id].status) && desk.apps[id].status != Submitted
      modifies this`desk, this`desks, this`steps, this`heard
      ensures Valid()
      ensures desk.calls == old(desk).calls && desk.browserCalls == old(desk).browserCalls
      ensures Undisturbed(old(desk).(ledger := desk.ledger), desk, subject)
      ensures error.None? ==> !Held(desk.ledger, id)
      ensures error.None? && target == Committed ==> id in desk.ledger && desk.ledger[id].state == Committed
      ensures NoNews(old(heard), heard)
      ensures heard.trouble == 0 ==> error.None? && SameRecord(old(desk), desk, subject)
      ensures desk.ledger == old(desk).ledger || desk.ledger == Finished(old(desk).ledger, id, target)
      ensures error.None? ==> desk.ledger == Finished(old(desk).ledger, id, target)
    {
      hide Valid;
      if * {
        Trouble();
        return Some(Failing(Temporary));
      }
      SubjectKept();
      if !MayFinish(desk.ledger, id, target) {
        return Some(Failing(Temporary));
      }
      if target == Committed {
        Take(desk.(ledger := Finished(desk.ledger, id, Committed)), Commit(id));
      } else {
        Take(desk.(ledger := Finished(desk.ledger, id, Released)), Release(id));
      }
      Interference();
      if * {
        Trouble();
        return Some(Failing(Temporary));
      }
      error := None;
    }

    method ReserveBudget(id: string, plan: Plan) returns (error: Option<OpError>)
      requires Valid() && id == subject && id in desk.apps && plan.dailyLimit <= highestLimit
      requires !InFlight(desk.apps[id].status) && desk.apps[id].status != Submitted
      modifies this`desk, this`desks, this`steps, this`heard
      ensures Valid()
      ensures desk.calls == old(desk).calls && desk.browserCalls == old(desk).browserCalls
      ensures Undisturbed(old(desk).(ledger := desk.ledger), desk, subject)
      ensures error.None? ==> Held(desk.ledger, id)
      ensures NoNews(old(heard).(window := heard.window), heard)
      ensures heard.trouble == 0 ==> SameRecord(old(desk), desk, subject)
      ensures plan.dailyLimit < 1 ==> error == Some(Failing(Temporary))
      ensures heard.trouble == 0 && plan.dailyLimit >= 1 ==>
        heard.window.Some? &&
        error == match ReserveOutcome(old(desk).ledger, id, heard.window.value, plan.dailyLimit)
                 case Granted => None
                 case Exhausted => Some(Failing(QuotaExceeded))
                 case Refused => Some(Failing(Temporary))
    {
      hide Valid;
      var window := Anything();
      if plan.dailyLimit < 1 {
        return Some(Failing(Temporary));
      }
      heard := heard.(window := Some(window));
      if * {
        Trouble();
        return Some(Failing(Temporary));
      }
      SubjectKept();
      GrantHolds(desk, id, window, plan.dailyLimit);
      hide AfterReserve, ReserveOutcome, Held;
      var outcome := ReserveOutcome(desk.ledger, id, window, plan.dailyLimit);
      Take(desk.(ledger := AfterReserve(desk.ledger, id, window, plan.dailyLimit)),
        Reserve(id, window, plan.dailyLimit));
      Interference();
      match outcome
      case Granted =>
        if * {
          Trouble();
          return Some(Failing(Temporary));
        }
        error := None;
      case Exhausted => error := Some(Failing(QuotaExceeded));
      case Refused => error := Some(Failing(Temporary));
    }

    // The worker is inside the attempt it stored.
    ghost predicate Attempting(a: App)
      reads this
    {
      a.id == subject && a.status == Submitting && a.id in desk.apps && desk.apps[a.id] == a &&
      desk.current == Some(a.id) && !desk.browsed
    }

    // A tailored plan's platform call is made now.
    ghost method SeeAccount(id: string)
      requires Valid() && OnlySubmitting(tailoring.world, id) && heard.tailored.Some?
      requires StillApplies(heard, tailoring.world, id)
      modifies this`sights
      ensures Valid() && Sighted(old(sights), sights, id, true, heard)
    {
      sights := sights + [Sight(id, |tailoring.worlds| - 1, heard.tailored.value, heard.overrides)];
    }

    // The submission may reach the platform whether or not its result comes back.
    method SubmitApplication(application: App, ghost tailored: bool) returns (r: Result<Submission, OpError>)
      requires Valid() && Attempting(application) && !desk.called
      requires tailored ==>
        OnlySubmitting(tailoring.world, application.id) && heard.tailored.Some? &&
        StillApplies(heard, tailoring.world, application.id)
      modifies this`desk, this`desks, this`steps, this`heard, this`sights, tailoring
      ensures Valid()
      ensures Attempting(application) && desk.apps.Keys == old(desk).apps.Keys
      ensures desk.ledger == old(desk).ledger && desk.browserCalls == old(desk).browserCalls
      ensures desk.calls == old(desk).calls ||
        desk.calls == old(desk).calls + [Call(application.id, application.attempts)]
      ensures Sighted(old(sights), sights, application.id, desk.calls != old(desk).calls && tailored, heard)
      ensures NoNews(old(heard).(answer := Some(r)), heard)
      ensures heard.trouble == 0 ==> desk.calls != old(desk).calls
    {
      hide Valid, OnlySubmitting, StillApplies, Held, InFlight;
      var failure: OpError := *;
      if * {
        Trouble();
        heard := heard.(answer := Some(Err(failure)));
        return Err(failure);
      }
      AccountEdited();
      if tailored {
        SeeAccount(application.id);
      }
      Take(desk.(calls := desk.calls + [Call(application.id, application.attempts)], called := true),
        CallPlatform(application.id));
      Interference();
      if * {
        heard := heard.(answer := Some(Err(failure)));
        return Err(failure);
      }
      var submission: Submission := *;
      r := Ok(submission);
      heard := heard.(answer := Some(r));
    }

    // ---- settling an attempt ----

    method SaveAndRelease(candidate: App, expected: Status, capture: bool) returns (error: Option<OpError>)
      requires Valid() && candidate.id == subject && candidate.id in desk.apps
      requires !InFlight(candidate.status) && candidate.status != Submitted
      requires desk.apps[candidate.id].status == expected ==> StoreAllowed(desk, desk.apps[candidate.id], candidate)
      modifies this`desk, this`desks, this`steps, this`heard, tailoring
      ensures Valid()
      ensures desk.calls == old(desk).calls && desk.browserCalls == old(desk).browserCalls
      ensures desk.apps.Keys == old(desk).apps.Keys
      ensures error.None? ==> AllRestored(tailoring.world, candidate.id)
      ensures error.None? ==>
        !Held(desk.ledger, candidate.id) &&
        MayHaveBeenSentBack(candidate, desk.apps[candidate.id])
      ensures MayHaveBeenSentBack(candidate, desk.apps[candidate.id]) ||
        MayHaveBeenSentBack(old(desk).apps[candidate.id], desk.apps[candidate.id])
      ensures NoNews(old(heard), heard)
      ensures heard.trouble == 0 && old(desk).apps[candidate.id].status == expected ==>
        error.None? && desk.apps[candidate.id] == candidate
    {
      hide Valid, OnlySubmitting, AllRestored, StoreAllowed, Held;
      var saved := SaveApplication(candidate, expected);
      if !saved {
        return Some(Foreign);
      }
      error := SettleBudget(candidate.id, Released);
      if error.None? && capture {
        error := Elsewhere();
      }
      if error.None? {
        error := RestoreTailoring(candidate.id);
      }
    }

    method SaveAndCommit(candidate: App, expected: Status) returns (error: Option<OpError>)
      requires Valid() && candidate.id == subject && candidate.id in desk.apps && candidate.status == Submitted
      requires desk.apps[candidate.id].status == expected ==> StoreAllowed(desk, desk.apps[candidate.id], candidate)
      modifies this`desk, this`desks, this`steps, this`heard, tailoring
      ensures Valid()
      ensures desk.calls == old(desk).calls && desk.browserCalls == old(desk).browserCalls
      ensures desk.apps.Keys == old(desk).apps.Keys
      ensures error.None? ==> AllRestored(tailoring.world, candidate.id)
      ensures error.None? ==> desk.apps[candidate.id] == candidate
      ensures MayHaveBeenSentBack(candidate, desk.apps[candidate.id]) ||
        MayHaveBeenSentBack(old(desk).apps[candidate.id], desk.apps[candidate.id])
      ensures error.None? ==> candidate.id in desk.ledger && desk.ledger[candidate.id].state == Committed
      ensures NoNews(old(heard), heard)
      ensures heard.trouble == 0 && old(desk).apps[candidate.id].status == expected ==>
        error.None? && desk.apps[candidate.id] == candidate
    {
      hide Valid, OnlySubmitting, AllRestored;
      var saved := SaveApplication(candidate, expected);
      if !saved {
        return Some(Foreign);
      }
      error := SettleBudget(candidate.id, Committed);
      if error.None? {
        error := Elsewhere();
      }
      if error.None? {
        error := RestoreTailoring(candidate.id);
      }
    }

    // The browser submits in the profile's own session.
    method AskBrowser(application: App) returns (came: Option<BrowserOutcome>)
      requires Valid() && Attempting(application) && desk.lastError == Some(ConfirmationRequired)
      modifies this`desk, this`desks, this`steps, this`heard
      ensures Valid()
      ensures desk.apps.Keys == old(desk).apps.Keys && desk.calls == old(desk).calls && desk.ledger == old(desk).ledger
      ensures desk.browserCalls == old(desk).browserCalls + [Call(application.id, application.attempts)]
      ensures desk.current == Some(application.id) && desk.apps[application.id] == application
      ensures NoNews(old(heard).(browser := heard.browser), heard)
      ensures heard.browser == Some(if came.Some? then Came(came.value) else Broke)
    {
      hide Valid;
      Take(desk.(browserCalls := desk.browserCalls + [Call(application.id, application.attempts)], browsed := true),
        CallBrowser(application.id));
      Interference();
      if * {
        heard := heard.(browser := Some(Broke));
        return None;
      }
      var outcome: BrowserOutcome := *;
      heard := heard.(browser := Some(Came(outcome)));
      came := Some(outcome);
    }

    method BrowserFallback(application: App) returns (handled: bool, error: Option<OpError>)
      requires Valid() && Attempting(application) && desk.lastError == Some(ConfirmationRequired)
      modifies this`desk, this`desks, this`steps, this`heard, tailoring
      ensures Valid()
      ensures desk.apps.Keys == old(desk).apps.Keys && desk.calls == old(desk).calls
      ensures desk.browserCalls == old(desk).browserCalls ||
        desk.browserCalls == old(desk).browserCalls + [Call(application.id, application.attempts)]
      ensures !handled ==> desk.current == Some(application.id) && desk.apps[application.id] == application
      ensures handled && error.None? ==> !Held(desk.ledger, application.id)
      ensures handled && error.None? ==> AllRestored(tailoring.world, application.id)
      ensures !handled ==> error.None?
      ensures handled ==> desk.browserCalls != old(desk).browserCalls
      ensures Ended(desk, application, Submitted) || Ended(desk, application, WaitingValidation)
      ensures NoNews(old(heard).(browser := heard.browser), heard)
      ensures heard.browser.Some? && (handled <==> heard.browser.value.Came?)
      ensures heard.browser == Some(Unregistered) <==> desk.browserCalls == old(desk).browserCalls
      ensures handled && heard.trouble == 0 ==>
        error.None? &&
        desk.apps[application.id].status == if heard.browser == Some(Came(Done)) then Submitted else WaitingValidation
      ensures heard.trouble == 0 ==> SameWords(desk.apps[application.id], application)
    {
      hide Valid, OnlySubmitting, AllRestored;
      var registered: bool := *;
      if !registered {
        heard := heard.(browser := Some(Unregistered));
        return false, None;
      }
      var came := AskBrowser(application);
      if came.None? {
        return false, None;
      }
      handled := true;
      var outcome := came.value;
      var now := Clock(application);
      if outcome == Done {
        var submitted := Moving(application, Submitted, now);
        if submitted.None? {
          return true, Some(Foreign);
        }
        error := SaveAndCommit(submitted.value, Submitting);
        return;
      }
      var reason: string := *;
      var decided := application.(reason := reason, decision :=
        if outcome == WaitingCaptcha then "captcha_required" else "platform_validation_required");
      var waiting := Moving(decided, WaitingValidation, now);
      if waiting.None? {
        return true, Some(Foreign);
      }
      error := SaveAndRelease(waiting.value, Submitting, false);
    }

    // The definite end of an attempt without a submission: move, save, release,
    // restore.
    method Abandon(application: App, to: Status, now: nat, capture: bool) returns (error: Option<OpError>)
      requires Valid() && application.id == subject && application.status == Submitting && application.id in desk.apps
      requires desk.current == Some(application.id) && desk.apps[application.id].status == Submitting
      requires desk.apps[application.id].attempts == application.attempts
      requires to == Ready || to == WaitingValidation || to == Skipped || to == Failed
      modifies this`desk, this`desks, this`steps, this`heard, tailoring
      ensures Valid()
      ensures desk.calls == old(desk).calls && desk.browserCalls == old(desk).browserCalls
      ensures desk.apps.Keys == old(desk).apps.Keys
      ensures error.None? ==> AllRestored(tailoring.world, application.id)
      ensures error.None? ==> !Held(desk.ledger, application.id) && Reached(desk, application, to)
      ensures Ended(desk, application, to)
      ensures NoNews(old(heard), heard)
      ensures heard.trouble == 0 && Timely(now, application) ==>
        error.None? && desk.apps[application.id] == Moved(application, to, now)
    {
      hide Valid, OnlySubmitting, AllRestored;
      var moved := Moving(application, to, now);
      if moved.None? {
        return Some(Foreign);
      }
      SubjectKept();
      assert desk.apps[application.id].id == application.id;
      error := SaveAndRelease(moved.value, Submitting, capture);
    }

    method FinishFailure(application: App, plan: Plan, reported: OpError) returns (error: Option<OpError>)
      requires Valid() && Attempting(application) && heard.browser.None?
      modifies this`desk, this`desks, this`steps, this`heard, tailoring
      ensures Valid()
      ensures desk.apps.Keys == old(desk).apps.Keys && desk.calls == old(desk).calls
      ensures desk.browserCalls == old(desk).browserCalls ||
        desk.browserCalls == old(desk).browserCalls + [Call(application.id, application.attempts)]
      ensures Judged(reported).category != ConfirmationRequired ==> desk.browserCalls == old(desk).browserCalls
      ensures error.None? ==> AllRestored(tailoring.world, application.id)
      ensures error.None? ==> !Held(desk.ledger, application.id)
      ensures desk.browserCalls == old(desk).browserCalls ==> Ended(desk, application, StatusAfter(plan, reported))
      ensures desk.browserCalls == old(desk).browserCalls && error.None? ==>
        Reached(desk, application, StatusAfter(plan, reported))
      ensures StatusAfter(plan, reported) in {PendingReconcile, Ready, Failed} ==> error.Some?
      ensures Unknown(reported) ==> InFlight(desk.apps[application.id].status) && Held(desk.ledger, application.id)
      ensures NoNews(old(heard).(browser := heard.browser), heard)
      ensures heard.trouble == 0 ==> FailedAs(Now(), application.id, plan, reported, error)
      ensures heard.trouble == 0 ==> SameWords(desk.apps[application.id], application)
    {
      hide Valid, OnlySubmitting, AllRestored;
      var cause := Judged(reported);
      var now := Clock(application);
      Take(desk.(lastError := Some(cause.category)), Report(cause.category));
      var broken: bool := *;
      if cause.category == QuotaExceeded && broken {
        // The profile's time zone is unknown.
        Trouble();
        return Some(Foreign);
      }
      error := Settle(application, plan, cause, now);
    }

    // A judged failure, category by category.
    method Settle(application: App, plan: Plan, cause: OpError, now: nat) returns (error: Option<OpError>)
      requires Valid() && Attempting(application) && heard.browser.None? && Judged(cause) == cause
      requires desk.lastError == Some(cause.category)
      modifies this`desk, this`desks, this`steps, this`heard, tailoring
      ensures Valid()
      ensures desk.apps.Keys == old(desk).apps.Keys && desk.calls == old(desk).calls
      ensures desk.browserCalls == old(desk).browserCalls ||
        desk.browserCalls == old(desk).browserCalls + [Call(application.id, application.attempts)]
      ensures cause.category != ConfirmationRequired ==> desk.browserCalls == old(desk).browserCalls
      ensures error.None? ==> AllRestored(tailoring.world, application.id)
      ensures error.None? ==> !Held(desk.ledger, application.id)
      ensures desk.browserCalls == old(desk).browserCalls ==> Ended(desk, application, StatusAfter(plan, cause))
      ensures desk.browserCalls == old(desk).browserCalls && error.None? ==>
        Reached(desk, application, StatusAfter(plan, cause))
      ensures StatusAfter(plan, cause) in {PendingReconcile, Ready, Failed} ==> error.Some?
      ensures Unknown(cause) ==> InFlight(desk.apps[application.id].status) && Held(desk.ledger, application.id)
      ensures NoNews(old(heard).(browser := heard.browser), heard)
      ensures heard.trouble == 0 && Timely(now, application) ==> FailedAs(Now(), application.id, plan, cause, error)
      ensures heard.trouble == 0 && Timely(now, application) ==>
        SameWords(desk.apps[application.id], application)
    {
      hide Valid, OnlySubmitting, AllRestored;
      if ClosedCode(cause.code) {
        var reason: string := *;
        error := Abandon(application.(decision := "vacancy_closed", reason := reason), Skipped, now, false);
        return;
      }
      match cause.category
      case Ambiguous =>
        error := LeaveOpen(application, cause, now);
      case ValidationRequired =>
        error := AskForValidation(application, plan, cause.code, "platform_validation_required", now);
      case ConfirmationRequired =>
        error := Confirm(application, plan, cause.code, now);
      case Temporary => error := SendBack(application, cause, now);
      case RateLimited => error := SendBack(application, cause, now);
      case QuotaExceeded => error := SendBack(application.(failure := Some(QuotaExceeded)), cause, now);
      case Unauthorized => error := SendBack(application, cause, now);
      case _ =>
        error := GiveUp(application, cause, now);
    }

    // Try the browser, and ask an operator if that does not help.
    method Confirm(application: App, plan: Plan, demanded: string, now: nat) returns (error: Option<OpError>)
      requires Valid() && Attempting(application) && desk.lastError == Some(ConfirmationRequired)
      modifies this`desk, this`desks, this`steps, this`heard, tailoring
      ensures Valid()
      ensures desk.apps.Keys == old(desk).apps.Keys && desk.calls == old(desk).calls
      ensures desk.browserCalls == old(desk).browserCalls ||
        desk.browserCalls == old(desk).browserCalls + [Call(application.id, application.attempts)]
      ensures error.None? ==> Closed(Now(), application.id)
      ensures desk.browserCalls == old(desk).browserCalls ==>
        Ended(desk, application, DemandStatus(plan, demanded, "captcha_required")) &&
        (error.None? ==> Reached(desk, application, DemandStatus(plan, demanded, "captcha_required")))
      ensures NoNews(old(heard).(browser := heard.browser), heard)
      ensures heard.browser.Some?
      ensures heard.browser == Some(Unregistered) <==> desk.browserCalls == old(desk).browserCalls
      ensures heard.trouble == 0 && Timely(now, application) ==>
        error.None? &&
        desk.apps[application.id].status ==
          (match heard.browser.value
           case Came(outcome) => if outcome == Done then Submitted else WaitingValidation
           case _ => DemandStatus(plan, demanded, "captcha_required"))
      ensures heard.trouble == 0 && Timely(now, application) ==>
        SameWords(desk.apps[application.id], application)
    {
      hide Valid, OnlySubmitting, AllRestored;
      var handled, fallback := BrowserFallback(application);
      if handled {
        return fallback;
      }
      error := AskForValidation(application, plan, demanded, "captcha_required", now);
    }

    // The outcome is unknown: the reservation stays until reconciliation.
    method LeaveOpen(application: App, cause: OpError, now: nat) returns (error: Option<OpError>)
      requires Valid() && Attempting(application)
      modifies this`desk, this`desks, this`steps, this`heard
      ensures Valid()
      ensures desk.calls == old(desk).calls && desk.browserCalls == old(desk).browserCalls
      ensures desk.ledger == old(desk).ledger && desk.apps.Keys == old(desk).apps.Keys
      ensures error.Some? && Ended(desk, application, PendingReconcile)
      ensures NoNews(old(heard), heard)
      ensures InFlight(desk.apps[application.id].status) && Held(desk.ledger, application.id)
      ensures heard.trouble == 0 && Timely(now, application) ==>
        error == Some(cause) && desk.apps[application.id].status == PendingReconcile
      ensures heard.trouble == 0 && Timely(now, application) ==>
        SameWords(desk.apps[application.id], application)
    {
      hide Valid;
      var pending := Moving(application, PendingReconcile, now);
      Kept();
      if pending.None? {
        return Some(Foreign);
      }
      SubjectKept();
      var saved := SaveApplication(pending.value, Submitting);
      Kept();
      error := Some(if saved then cause else Foreign);
    }

    method GiveUp(application: App, cause: OpError, now: nat) returns (error: Option<OpError>)
      requires Valid() && Attempting(application) && cause.OpError?
      modifies this`desk, this`desks, this`steps, this`heard, tailoring
      ensures Valid()
      ensures desk.calls == old(desk).calls && desk.browserCalls == old(desk).browserCalls
      ensures desk.apps.Keys == old(desk).apps.Keys && error.Some? && Ended(desk, application, Failed)
      ensures NoNews(old(heard), heard)
      ensures heard.trouble == 0 && Timely(now, application) ==>
        error == Some(cause) && desk.apps[application.id].status == Failed &&
        desk.apps[application.id].failure == Some(cause.category) && Closed(Now(), application.id)
      ensures heard.trouble == 0 && Timely(now, application) ==>
        SameWords(desk.apps[application.id], application)
    {
      hide Valid;
      var draft := new ApplicationDraft(application);
      var ok := draft.Fail(cause.category, now);
      if !ok {
        return Some(Foreign);
      }
      SubjectKept();
      error := SaveAndRelease(draft.app, Submitting, false);
      error := if error.None? then Some(cause) else error;
    }

    // The application goes back to Ready and the cause is reported.
    method SendBack(application: App, cause: OpError, now: nat) returns (error: Option<OpError>)
      requires Valid() && application.id == subject && application.status == Submitting && application.id in desk.apps
      requires desk.current == Some(application.id) && desk.apps[application.id].status == Submitting
      requires desk.apps[application.id].attempts == application.attempts
      modifies this`desk, this`desks, this`steps, this`heard, tailoring
      ensures Valid()
      ensures desk.calls == old(desk).calls && desk.browserCalls == old(desk).browserCalls
      ensures desk.apps.Keys == old(desk).apps.Keys && error.Some? && Ended(desk, application, Ready)
      ensures NoNews(old(heard), heard)
      ensures heard.trouble == 0 && Timely(now, application) ==>
        error == Some(cause) && desk.apps[application.id].status == Ready &&
        desk.apps[application.id].failure == application.failure && Closed(Now(), application.id)
      ensures heard.trouble == 0 && Timely(now, application) ==>
        SameWords(desk.apps[application.id], application)
    {
      hide Valid;
      error := Abandon(application, Ready, now, false);
      if error.None? {
        error := Some(cause);
      }
    }

    method AskForValidation(application: App, plan: Plan, demanded: string, fallbackCode: string, now: nat)
      returns (error: Option<OpError>)
      requires Valid() && application.id == subject && application.status == Submitting && application.id in desk.apps
      requires desk.current == Some(application.id) && desk.apps[application.id].status == Submitting
      requires desk.apps[application.id].attempts == application.attempts
      modifies this`desk, this`desks, this`steps, this`heard, tailoring
      ensures Valid()
      ensures desk.calls == old(desk).calls && desk.browserCalls == old(desk).browserCalls
      ensures desk.apps.Keys == old(desk).apps.Keys
      ensures error.None? ==> AllRestored(tailoring.world, application.id)
      ensures error.None? ==>
        !Held(desk.ledger, application.id) &&
        Reached(desk, application, DemandStatus(plan, demanded, fallbackCode))
      ensures Ended(desk, application, DemandStatus(plan, demanded, fallbackCode))
      ensures NoNews(old(heard), heard)
      ensures heard.trouble == 0 && Timely(now, application) ==>
        error.None? && desk.apps[application.id].status == DemandStatus(plan, demanded, fallbackCode)
      ensures heard.trouble == 0 && Timely(now, application) ==>
        SameWords(desk.apps[application.id], application)
    {
      hide Valid;
      var code := Trim(demanded);
      if code == "" {
        code := fallbackCode;
      }
      if plan.skipValidation && SkippableCode(code) {
        var reason: string := *;
        error := Abandon(application.(decision := code, reason := reason), Skipped, now, false);
        return;
      }
      error := Abandon(application.(decision := code), WaitingValidation, now, code == "questionnaire_required");
    }

    method Reconcile(application: App) returns (error: Option<OpError>, ghost found: bool)
      requires Valid() && application.id == subject && application.id in desk.apps
      requires application.status == PendingReconcile && desk.apps[application.id] == application
      modifies this`desk, this`desks, this`steps, this`heard, tailoring
      ensures Valid()
      ensures desk.calls == old(desk).calls && desk.browserCalls == old(desk).browserCalls
      ensures desk.apps.Keys == old(desk).apps.Keys
      ensures error.None? ==> AllRestored(tailoring.world, application.id)
      ensures error.None? ==> !Held(desk.ledger, application.id) && !InFlight(desk.apps[application.id].status)
      ensures error.None? ==> Reached(desk, application, if found then Submitted else Failed)
      ensures Ended(desk, application, if found then Submitted else Failed)
      ensures NoNews(old(heard).(found := heard.found), heard)
      ensures heard.trouble == 0 ==>
        heard.found == Some(found) && error.None? &&
        desk.apps[application.id].status == if found then Submitted else Failed
    {
      hide Valid;
      found := false;
      error := Elsewhere();
      if error.Some? {
        return;
      }
      var applied: bool := *;
      found := applied;
      heard := heard.(found := Some(applied));
      var now := Clock(application);
      if applied {
        var submitted := Moving(application, Submitted, now);
        if submitted.None? {
          return Some(Foreign), found;
        }
        error := SaveAndCommit(submitted.value, PendingReconcile);
        return;
      }
      var draft := new ApplicationDraft(application);
      var ok := draft.Fail(Permanent, now);
      if !ok {
        return Some(Foreign), found;
      }
      error := SaveAndRelease(draft.app, PendingReconcile, false);
    }

    // ---- preparing ----

    // The worker's copy before an attempt: the loaded record, moved on in memory only.
    ghost predicate Working(loaded: App, a: App)
      reads this
    {
      loaded.id == subject && loaded.id in desk.apps && MayHaveBeenSentBack(loaded, desk.apps[loaded.id]) &&
      Startable(loaded.status) && a.id == loaded.id && a.attempts == loaded.attempts &&
      desk.current.None? && (heard.trouble == 0 ==> desk.apps[loaded.id] == loaded)
    }

    // Saves the worker's copy over what it loaded, before an attempt.
    method Park(loaded: App, application: App, to: Status, now: nat) returns (error: Option<OpError>)
      requires Valid() && Working(loaded, application) && Idle(to) && to != New
      modifies this`desk, this`desks, this`steps, this`heard
      ensures Valid()
      ensures desk.calls == old(desk).calls && desk.browserCalls == old(desk).browserCalls
      ensures desk.ledger == old(desk).ledger && desk.apps.Keys == old(desk).apps.Keys
      ensures !InFlight(desk.apps[loaded.id].status) && desk.apps[loaded.id].status != Submitted
      ensures error.None? ==> Reached(desk, loaded, to)
      ensures NoNews(old(heard), heard)
      ensures heard.trouble == 0 && MayMove(application, to, now) ==>
        error.None? && desk.apps[loaded.id] == Moved(application, to, now)
    {
      hide Valid;
      var moved := Moving(application, to, now);
      if moved.None? {
        return Some(Foreign);
      }
      var saved := SaveApplication(moved.value, loaded.status);
      error := if saved then None else Some(Foreign);
    }

    method Prepare(loaded: App, application: App, plan: Plan, now: nat) returns (r: Preparation)
      requires Valid() && Working(loaded, application) &&
        (application.status == Preparing || application.status == Ready)
      modifies this`desk, this`desks, this`steps, this`heard, tailoring
      ensures Valid()
      ensures desk.calls == old(desk).calls && desk.browserCalls == old(desk).browserCalls
      ensures desk.apps.Keys == old(desk).apps.Keys
      ensures r.Continue? ==> Working(loaded, r.app) && r.app.status == application.status && r.app.prepared
      ensures r.Continue? ==> GoesOn(Now()) && r.app == Prepared(application, heard.decision.value, now)
      ensures r.Continue? ==> desk.ledger == old(desk).ledger
      ensures r.Finish? ==> !InFlight(desk.apps[loaded.id].status) && desk.apps[loaded.id].status != Submitted
      ensures NoNews(old(heard).(vacancy := heard.vacancy, decision := heard.decision), heard)
      ensures heard.trouble == 0 && Timely(now, application) && r.Finish? ==>
        !GoesOn(Now()) && EndedBefore(Now(), loaded, plan, r.error)
    {
      hide Valid;
      var missing := LoadVacancy();
      if missing.Some? {
        var error := Unloadable(loaded, application, missing.value, now);
        return Finish(error);
      }
      r := Decide(loaded, application, plan, now);
    }

    // The vacancy could not be loaded. Only a valid operation error is acted on: a closed
    // vacancy is skipped and a permanent failure fails the application. Anything else is
    // reported and leaves the record as it was.
    method Unloadable(loaded: App, application: App, missing: OpError, now: nat) returns (error: Option<OpError>)
      requires Valid() && Working(loaded, application)
      modifies this`desk, this`desks, this`steps, this`heard, tailoring
      ensures Valid()
      ensures desk.calls == old(desk).calls && desk.browserCalls == old(desk).browserCalls
      ensures desk.apps.Keys == old(desk).apps.Keys
      ensures !InFlight(desk.apps[loaded.id].status) && desk.apps[loaded.id].status != Submitted
      ensures StatusIfMissing(missing).None? ==> error == Some(missing) && desk == old(desk)
      ensures StatusIfMissing(missing).Some? ==> Ended(desk, loaded, StatusIfMissing(missing).value)
      ensures error.None? ==>
        StatusIfMissing(missing) == Some(Skipped) && Reached(desk, loaded, Skipped) && !Held(desk.ledger, loaded.id)
      ensures error == Some(missing) && StatusIfMissing(missing) == Some(Failed) ==>
        Reached(desk, loaded, Failed)
      ensures NoNews(old(heard), heard)
      ensures heard.trouble == 0 && Timely(now, application) && application.status in {Preparing, Ready} ==>
        MissedAs(Now(), loaded, missing, error)
    {
      hide Valid;
      if missing.OpError? && missing.valid {
        if missing.code == "vacancy_closed" {
          var reason: string := *;
          var skipped := Moving(application.(decision := "vacancy_closed", reason := reason), Skipped, now);
          if skipped.None? {
            return Some(Foreign);
          }
          error := CloseBeforeAttempt(loaded, skipped.value);
          return;
        }
        if missing.category == Permanent {
          var draft := new ApplicationDraft(application);
          var failed := draft.Fail(Permanent, now);
          if !failed {
            return Some(Foreign);
          }
          var saved := SaveApplication(draft.app, loaded.status);
          if !saved {
            return Some(Foreign);
          }
        }
      }
      error := Some(missing);
    }

    // The decision on a vacancy that could be loaded.
    method Decide(loaded: App, application: App, plan: Plan, now: nat) returns (r: Preparation)
      requires Valid() && Working(loaded, application) &&
        (application.status == Preparing || application.status == Ready)
      modifies this`desk, this`desks, this`steps, this`heard
      ensures Valid()
      ensures desk.calls == old(desk).calls && desk.browserCalls == old(desk).browserCalls
      ensures desk.apps.Keys == old(desk).apps.Keys && desk.ledger == old(desk).ledger
      ensures r.Continue? ==> Working(loaded, r.app) && r.app.status == application.status && r.app.prepared
      ensures r.Finish? ==> !InFlight(desk.apps[loaded.id].status) && desk.apps[loaded.id].status != Submitted
      ensures NoNews(old(heard).(decision := heard.decision), heard)
      ensures r.Continue? ==>
        heard.decision.Some? && heard.decision.value.outcome == Apply && Recordable(heard.decision.value) &&
        r.app == Prepared(application, heard.decision.value, now)
      ensures r.Finish? && r.error.None? ==>
        heard.decision.Some? &&
        var to := StatusDecided(plan, heard.decision.value.outcome, heard.decision.value.code);
        to.Some? && Reached(desk, loaded, to.value)
      ensures heard.trouble == 0 && Timely(now, application) && r.Finish? ==>
        heard.decision.Some? && DecidedAs(Now(), loaded, plan, heard.decision.value, r.error)
    {
      hide Valid, Trim;
      var asked := AskDecision();
      if asked.Err? {
        return Finish(Some(asked.error));
      }
      var decision := asked.value;
      var recorder := new ApplicationDraft(application);
      var recorded := recorder.RecordPreparation(decision.code, decision.reason, decision.resume, decision.message,
        decision.provenance, now);
      if !recorded {
        return Finish(Some(Foreign));
      }
      if decision.outcome == Apply {
        return Continue(recorder.app);
      }
      var error := Decline(loaded, recorder.app, plan, decision, now);
      r := Finish(error);
    }

    // The decision is not to apply, or to ask first.
    method Decline(loaded: App, application: App, plan: Plan, decision: Decision, now: nat)
      returns (error: Option<OpError>)
      requires Valid() && Working(loaded, application) && decision.outcome != Apply &&
        (application.status == Preparing || application.status == Ready)
      modifies this`desk, this`desks, this`steps, this`heard
      ensures Valid()
      ensures desk.calls == old(desk).calls && desk.browserCalls == old(desk).browserCalls
      ensures desk.apps.Keys == old(desk).apps.Keys && desk.ledger == old(desk).ledger
      ensures !InFlight(desk.apps[loaded.id].status) && desk.apps[loaded.id].status != Submitted
      ensures NoNews(old(heard), heard)
      ensures error.None? ==>
        var to := StatusDecided(plan, decision.outcome, decision.code);
        to.Some? && Reached(desk, loaded, to.value)
      ensures heard.trouble == 0 && Timely(now, application) ==>
        error.None? && StatusDecided(plan, decision.outcome, decision.code) == Some(desk.apps[loaded.id].status)
    {
      hide Valid, Trim;
      if decision.outcome == Skip {
        error := Park(loaded, application, Skipped, now);
        return;
      }
      if plan.skipValidation && SkippableCode(decision.code) {
        error := Park(loaded, application, Skipped, now);
        return;
      }
      error := Park(loaded, application, WaitingValidation, now);
      if error.None? && (decision.code == "vacancy_test_required" || decision.code == "questionnaire_required") {
        error := Elsewhere();
      }
    }

    // The vacancy is gone: skip, release, restore.
    method CloseBeforeAttempt(loaded: App, skipped: App) returns (error: Option<OpError>)
      requires Valid() && Working(loaded, skipped) && skipped.status == Skipped
      modifies this`desk, this`desks, this`steps, this`heard, tailoring
      ensures Valid()
      ensures desk.calls == old(desk).calls && desk.browserCalls == old(desk).browserCalls
      ensures desk.apps.Keys == old(desk).apps.Keys
      ensures !InFlight(desk.apps[loaded.id].status) && desk.apps[loaded.id].status != Submitted
      ensures error.None? ==> AllRestored(tailoring.world, loaded.id)
      ensures error.None? ==> Reached(desk, loaded, Skipped) && !Held(desk.ledger, loaded.id)
      ensures Ended(desk, loaded, Skipped)
      ensures NoNews(old(heard), heard)
      ensures heard.trouble == 0 ==> error.None? && desk.apps[loaded.id] == skipped
    {
      hide Valid;
      var saved := SaveApplication(skipped, loaded.status);
      if !saved {
        return Some(Foreign);
      }
      error := SettleBudget(loaded.id, Released);
      if error.None? {
        error := RestoreTailoring(loaded.id);
      }
    }

    // Whatever happens before the attempt is stored, and the store that opens it.
    method Open(loaded: App, application: App, plan: Plan, now: nat) returns (error: Option<OpError>, entered: App)
      requires Valid() && Working(loaded, application) && plan.dailyLimit <= highestLimit
      requires application.status == Preparing || application.status == Ready
      requires heard.tailored.None? && heard.overrides == []
      modifies this`desk, this`desks, this`steps, this`heard, tailoring
      ensures Valid()
      ensures desk.calls == old(desk).calls && desk.browserCalls == old(desk).browserCalls
      ensures desk.apps.Keys == old(desk).apps.Keys
      ensures error.None? ==> Attempting(entered) && entered.attempts == loaded.attempts + 1 && entered.id == loaded.id
      ensures error.None? ==> !desk.called
      ensures NoNews(
        old(heard).(window := heard.window, tailored := heard.tailored, overrides := heard.overrides), heard)
      ensures heard.trouble == 0 && Timely(now, application) ==>
        AskedBudget(Now(), loaded, plan, old(desk).ledger, error)
      ensures error.None? ==> SameWords(entered, application)
      ensures error.None? ==>
        (plan.tailored <==> heard.tailored.Some?) && StillApplies(heard, tailoring.world, loaded.id)
    {
      hide Valid;
      entered := application;
      if entered.status == Preparing {
        var ready := Moving(entered, Ready, now);
        if ready.None? {
          return Some(Foreign), entered;
        }
        entered := ready.value;
      }
      error := Fund(loaded, entered, plan);
      if error.None? {
        error, entered := EnterAttempt(loaded, entered, now);
      }
    }

    // Reserve the budget, take a pacing slot, apply the tailoring. A refusal stores
    // the application as it is; only the last two give the budget back.
    method Fund(loaded: App, ready: App, plan: Plan) returns (error: Option<OpError>)
      requires Valid() && Working(loaded, ready) && ready.status == Ready && plan.dailyLimit <= highestLimit
      requires heard.tailored.None? && heard.overrides == []
      modifies this`desk, this`desks, this`steps, this`heard, tailoring
      ensures Valid()
      ensures desk.calls == old(desk).calls && desk.browserCalls == old(desk).browserCalls
      ensures desk.apps.Keys == old(desk).apps.Keys
      ensures error.None? ==> Working(loaded, ready) && Held(desk.ledger, loaded.id)
      ensures NoNews(
        old(heard).(window := heard.window, tailored := heard.tailored, overrides := heard.overrides), heard)
      ensures heard.trouble == 0 ==> AskedBudget(Now(), loaded, plan, old(desk).ledger, error)
      ensures error.None? ==>
        (plan.tailored <==> heard.tailored.Some?) && StillApplies(heard, tailoring.world, loaded.id)
    {
      hide Valid, OnlySubmitting, AllRestored;
      error := ReserveBudget(loaded.id, plan);
      if error.Some? {
        var saved := SaveApplication(ready, loaded.status);
        error := if saved then error else Some(Foreign);
        return;
      }
      error := Elsewhere();
      if error.None? {
        error := ApplyTailoring(ready, plan);
      }
      if error.Some? {
        var refused := SaveAndReleaseOnly(loaded, ready);
        error := if refused.Some? then refused else error;
      }
    }

    // A refusal before the attempt: save, then release. The tailoring stays.
    method SaveAndReleaseOnly(loaded: App, ready: App) returns (error: Option<OpError>)
      requires Valid() && Working(loaded, ready) && ready.status == Ready
      modifies this`desk, this`desks, this`steps, this`heard
      ensures Valid()
      ensures desk.calls == old(desk).calls && desk.browserCalls == old(desk).browserCalls
      ensures desk.apps.Keys == old(desk).apps.Keys
      ensures error.None? ==> !Held(desk.ledger, loaded.id)
      ensures NoNews(old(heard), heard)
      ensures heard.trouble == 0 ==> error.None?
    {
      hide Valid;
      var saved := SaveApplication(ready, loaded.status);
      if !saved {
        return Some(Foreign);
      }
      error := SettleBudget(loaded.id, Released);
    }

    method EnterAttempt(loaded: App, ready: App, now: nat) returns (error: Option<OpError>, entered: App)
      requires Valid() && Working(loaded, ready) && ready.status == Ready && Held(desk.ledger, loaded.id)
      modifies this`desk, this`desks, this`steps, this`heard
      ensures Valid()
      ensures desk.calls == old(desk).calls && desk.browserCalls == old(desk).browserCalls
      ensures desk.apps.Keys == old(desk).apps.Keys
      ensures error.None? ==> Attempting(entered) && entered.attempts == loaded.attempts + 1 && entered.id == loaded.id
      ensures error.None? ==> !desk.called
      ensures NoNews(old(heard), heard)
      ensures heard.trouble == 0 && Timely(now, ready) ==> error.None?
      ensures error.None? ==> SameWords(entered, ready)
    {
      hide Valid;
      entered := ready;
      var submitting := Moving(ready, Submitting, now);
      if submitting.None? {
        return Some(Foreign), entered;
      }
      entered := submitting.value;
      var saved := SaveApplication(entered, loaded.status);
      error := if saved then None else Some(Foreign);
    }

    // ---- the attempt ----

    method Submit(application: App, plan: Plan)
      returns (error: Option<OpError>, answer: Result<Submission, OpError>)
      requires (plan.tailored ==> heard.tailored.Some?) && StillApplies(heard, tailoring.world, application.id)
      requires Valid() && Attempting(application) && !desk.called && heard.browser.None? && heard.answer.None?
      modifies this`desk, this`desks, this`steps, this`heard, this`sights, tailoring
      ensures Valid()
      ensures desk.apps.Keys == old(desk).apps.Keys
      ensures desk.calls == old(desk).calls ||
        desk.calls == old(desk).calls + [Call(application.id, application.attempts)]
      ensures desk.browserCalls == old(desk).browserCalls ||
        desk.browserCalls == old(desk).browserCalls + [Call(application.id, application.attempts)]
      ensures Sighted(old(sights), sights, application.id, desk.calls != old(desk).calls && plan.tailored, heard)
      ensures error.None? ==> AllRestored(tailoring.world, application.id)
      ensures error.None? ==> !Held(desk.ledger, application.id)
      ensures FailureIn(answer).None? ==>
        Ended(desk, application, if answer.value.alreadyApplied then Skipped else Submitted)
      ensures FailureIn(answer).None? && error.None? ==>
        Reached(desk, application, if answer.value.alreadyApplied then Skipped else Submitted)
      ensures FailureIn(answer).Some? && desk.browserCalls == old(desk).browserCalls ==>
        Ended(desk, application, StatusAfter(plan, FailureIn(answer).value))
      ensures desk.browserCalls != old(desk).browserCalls ==>
        FailureIn(answer).Some? && Judged(FailureIn(answer).value).category == ConfirmationRequired
      ensures NoNews(old(heard).(answer := heard.answer, browser := heard.browser), heard)
      ensures heard.answer == None || heard.answer == Some(answer)
      ensures desk.calls != old(desk).calls || heard.trouble == 0 ==> heard.answer == Some(answer)
      ensures answer.Err? && Unknown(answer.error) ==>
        InFlight(desk.apps[application.id].status) && Held(desk.ledger, application.id)
      ensures heard.trouble == 0 ==>
        desk.calls != old(desk).calls && ConcludedAs(Now(), application.id, plan, answer, error)
      ensures heard.trouble == 0 ==> SameWords(desk.apps[application.id], application)
    {
      hide Valid, OnlySubmitting, AllRestored, StillApplies;
      // Tailoring is told, then the transport resolved.
      ghost var told, w := heard, tailoring.world;
      var unready := BeginTailoringSubmit(application.id, plan);
      if unready.None? {
        unready := Elsewhere();
      }
      AppliesStill(told, heard, w, tailoring.world, application.id);
      if unready.Some? {
        answer := Err(unready.value);
        error := FinishFailure(application, plan, unready.value);
        return;
      }
      answer := SubmitApplication(application, plan.tailored);
      error := Conclude(application, plan, answer);
    }

    // What becomes of the attempt, by the platform's answer.
    method Conclude(application: App, plan: Plan, answer: Result<Submission, OpError>) returns (error: Option<OpError>)
      requires Valid() && Attempting(application) && heard.browser.None?
      modifies this`desk, this`desks, this`steps, this`heard, tailoring
      ensures Valid()
      ensures desk.apps.Keys == old(desk).apps.Keys && desk.calls == old(desk).calls
      ensures desk.browserCalls == old(desk).browserCalls ||
        desk.browserCalls == old(desk).browserCalls + [Call(application.id, application.attempts)]
      ensures error.None? ==> AllRestored(tailoring.world, application.id)
      ensures error.None? ==> !Held(desk.ledger, application.id)
      ensures FailureIn(answer).None? ==>
        Ended(desk, application, if answer.value.alreadyApplied then Skipped else Submitted)
      ensures FailureIn(answer).None? && error.None? ==>
        Reached(desk, application, if answer.value.alreadyApplied then Skipped else Submitted)
      ensures FailureIn(answer).Some? && desk.browserCalls == old(desk).browserCalls ==>
        Ended(desk, application, StatusAfter(plan, FailureIn(answer).value))
      ensures desk.browserCalls != old(desk).browserCalls ==>
        FailureIn(answer).Some? && Judged(FailureIn(answer).value).category == ConfirmationRequired
      ensures NoNews(old(heard).(browser := heard.browser), heard)
      ensures answer.Err? && Unknown(answer.error) ==>
        InFlight(desk.apps[application.id].status) && Held(desk.ledger, application.id)
      ensures heard.trouble == 0 ==> ConcludedAs(Now(), application.id, plan, answer, error)
      ensures heard.trouble == 0 ==> SameWords(desk.apps[application.id], application)
    {
      hide Valid, AllRestored;
      var failure := FailureIn(answer);
      if failure.Some? {
        error := FinishFailure(application, plan, failure.value);
        return;
      }
      var now := Clock(application);
      if answer.value.alreadyApplied {
        var reason: string := *;
        error := Abandon(application.(decision := "already_applied", reason := reason), Skipped, now, false);
        return;
      }
      var submitted := Moving(application.(failure := None), Submitted, now);
      if submitted.None? {
        return Some(Foreign);
      }
      SubjectKept();
      error := SaveAndCommit(submitted.value, Submitting);
    }

    // An earlier worker stopped inside an attempt.
    method Interrupted(application: App) returns (error: Option<OpError>)
      requires Valid() && application.id == subject && application.id in desk.apps &&
        desk.apps[application.id] == application
      requires desk.current.None? && application.status == Submitting
      modifies this`desk, this`desks, this`steps, this`heard
      ensures Valid()
      ensures desk.calls == old(desk).calls && desk.browserCalls == old(desk).browserCalls
      ensures desk.apps.Keys == old(desk).apps.Keys
      ensures error.Some? && InFlight(desk.apps[application.id].status)
      ensures InCategory(error.value, Ambiguous) ==> desk.apps[application.id].status == PendingReconcile
      ensures NoNews(old(heard), heard)
      ensures heard.trouble == 0 ==>
        error == Some(Failing(Ambiguous)) && desk.apps[application.id].status == PendingReconcile
    {
      hide Valid;
      var now := Clock(application);
      var pending := Moving(application, PendingReconcile, now);
      if pending.None? {
        return Some(Foreign);
      }
      var saved := SaveApplication(pending.value, Submitting);
      error := Some(if saved then Failing(Ambiguous) else Foreign);
    }

    // An outcome that is stored already is settled, in case it was not.
    method SettleAgain(application: App, target: LedgerState) returns (error: Option<OpError>)
      requires Valid() && application.id == subject && application.id in desk.apps &&
        desk.apps[application.id] == application && desk.current.None?
      requires (application.status == Submitted && target == Committed) ||
        (application.status == Failed && target == Released)
      modifies this`desk, this`desks, this`steps, this`heard, tailoring
      ensures Valid()
      ensures desk.apps.Keys == old(desk).apps.Keys
      ensures desk.calls == old(desk).calls && desk.browserCalls == old(desk).browserCalls
      ensures error.None? ==> Closed(Now(), application.id)
      ensures error.None? && target == Committed ==>
        application.id in desk.ledger && desk.ledger[application.id].state == Committed
      ensures !InFlight(desk.apps[application.id].status)
      ensures NoNews(old(heard), heard)
      ensures heard.trouble == 0 ==> error.None? && desk.apps[application.id] == application
    {
      hide Valid, OnlySubmitting, AllRestored;
      error := SettleBudget(application.id, target);
      if error.None? && target == Committed {
        // The profile's activity is recorded.
        error := Elsewhere();
      }
      if error.None? {
        error := RestoreTailoring(application.id);
      }
    }

    // What a redelivery does with an application it does not take further.
    method Redelivered(application: App) returns (over: bool, error: Option<OpError>)
      requires Valid() && application.id == subject && application.id in desk.apps &&
        desk.apps[application.id] == application
      requires desk.current.None?
      modifies this`desk, this`desks, this`steps, this`heard, tailoring
      ensures Valid()
      ensures desk.apps.Keys == old(desk).apps.Keys
      ensures desk.calls == old(desk).calls && desk.browserCalls == old(desk).browserCalls
      ensures !over ==> error.None? && Working(application, application)
      ensures !over ==> application.status == WaitingValidation ==>
        !application.prepared && !Held(desk.ledger, application.id)
      ensures over && error.None? && application.status == Submitted ==>
        application.id in desk.ledger && desk.ledger[application.id].state == Committed
      ensures over && error.None? && application.status in {Submitted, Failed, PendingReconcile, WaitingValidation} ==>
        AllRestored(tailoring.world, application.id)
      ensures over && error.None? && application.status in {Failed, PendingReconcile, WaitingValidation} ==>
        !Held(desk.ledger, application.id) && !InFlight(desk.apps[application.id].status)
      ensures application.status == Submitting ==> error.Some? && InFlight(desk.apps[application.id].status)
      ensures NoNews(old(heard).(found := heard.found), heard)
      ensures !over ==> NoNews(old(heard), heard)
      ensures !over ==>
        desk.ledger == (if application.status == WaitingValidation
          then Finished(old(desk).ledger, application.id, Released) else old(desk).ledger)
      ensures heard.trouble == 0 ==> (over <==> !TakenFurther(application))
      ensures heard.trouble == 0 && over ==> FinishedAs(Now(), application, error)
    {
      hide Valid, OnlySubmitting, AllRestored;
      over := true;
      match application.status
      case Submitted =>
        error := SettleAgain(application, Committed);
      case PendingReconcile =>
        ghost var found;
        error, found := Reconcile(application);
      case Failed =>
        error := SettleAgain(application, Released);
      case WaitingValidation =>
        error := SettleBudget(application.id, Released);
        if error.Some? {
          return;
        }
        if application.prepared {
          error := RestoreTailoring(application.id);
        } else {
          over := false;
        }
      case Skipped => error := None;
      case DryRun => error := None;
      case WaitingApproval => error := None;
      case Submitting =>
        error := Interrupted(application);
      case _ =>
        over := false;
        error := None;
    }

    // One invocation on a stored application.
    method Run(application: App) returns (error: Option<OpError>)
      requires Valid() && application.id == subject && application.id in desk.apps &&
        desk.apps[application.id] == application
      requires desk.current.None? && heard == NothingYet
      modifies this`desk, this`desks, this`steps, this`heard, this`sights, tailoring
      ensures Valid()
      ensures desk.apps.Keys == old(desk).apps.Keys
      ensures desk.calls == old(desk).calls ||
        desk.calls == old(desk).calls + [Call(application.id, application.attempts + 1)]
      ensures desk.browserCalls == old(desk).browserCalls ||
        desk.browserCalls == old(desk).browserCalls + [Call(application.id, application.attempts + 1)]
      ensures desk.calls != old(desk).calls || desk.browserCalls != old(desk).browserCalls ==>
        Startable(application.status) &&
        (error.None? ==> !Held(desk.ledger, application.id) && AllRestored(tailoring.world, application.id))
      ensures CalledFor(old(desk), old(sights), application.id)
      ensures OpenIfUnknown(Now(), application.id)
      ensures error.None? && application.status in {Submitted, Failed, PendingReconcile} ==>
        AllRestored(tailoring.world, application.id)
      ensures error.None? && application.status == Submitted ==>
        application.id in desk.ledger && desk.ledger[application.id].state == Committed
      ensures error.None? && application.status in {Failed, PendingReconcile} ==>
        !Held(desk.ledger, application.id) && !InFlight(desk.apps[application.id].status)
      ensures application.status == Submitting ==> error.Some? && InFlight(desk.apps[application.id].status)
      ensures heard.trouble == 0 ==> HandledAs(Now(), application, old(desk), error)
      ensures heard.trouble == 0 && desk.calls != old(desk).calls ==> Worded(Now(), application)
    {
      hide Valid, OnlySubmitting, AllRestored;
      var over;
      over, error := Redelivered(application);
      if over {
        return;
      }
      var now := Clock(application);
      var current := application;
      if current.status == New || current.status == WaitingValidation {
        var preparing := Moving(current, Preparing, now);
        if preparing.None? {
          return Some(Foreign);
        }
        current := preparing.value;
      }
      error := Proceed(application, current, now);
    }

    // From the resolved plan on.
    method Proceed(loaded: App, application: App, now: nat) returns (error: Option<OpError>)
      requires Valid() && Working(loaded, application) && SameWords(application, loaded) &&
        (application.status == Preparing || application.status == Ready)
      requires heard == NothingYet.(trouble := heard.trouble)
      modifies this`desk, this`desks, this`steps, this`heard, this`sights, tailoring
      ensures Valid()
      ensures desk.apps.Keys == old(desk).apps.Keys
      ensures desk.calls == old(desk).calls || desk.calls == old(desk).calls + [Call(loaded.id, loaded.attempts + 1)]
      ensures desk.browserCalls == old(desk).browserCalls ||
        desk.browserCalls == old(desk).browserCalls + [Call(loaded.id, loaded.attempts + 1)]
      ensures desk.calls != old(desk).calls || desk.browserCalls != old(desk).browserCalls ==>
        error.None? ==> !Held(desk.ledger, loaded.id) && AllRestored(tailoring.world, loaded.id)
      ensures CalledFor(old(desk), old(sights), loaded.id)
      ensures OpenIfUnknown(Now(), loaded.id)
      ensures old(heard).trouble <= heard.trouble
      ensures heard.trouble == 0 && Timely(now, application) ==>
        ProceededAs(Now(), loaded, application.status == Preparing, old(desk), old(desk).ledger, error)
      ensures heard.trouble == 0 && desk.calls != old(desk).calls ==> Worded(Now(), loaded)
    {
      hide Valid, OnlySubmitting, AllRestored;
      var resolved := ResolvePlan();
      if resolved.Err? {
        if InCategory(resolved.error, ValidationRequired) && application.status == Preparing {
          error := Park(loaded, application, WaitingValidation, now);
          return;
        }
        return Some(resolved.error);
      }
      error := Follow(loaded, application, resolved.value, now);
    }

    // What the plan asks for: first a preparation, if there is none yet.
    method Follow(loaded: App, application: App, plan: Plan, now: nat) returns (error: Option<OpError>)
      requires Valid() && Working(loaded, application) && SameWords(application, loaded) &&
        (application.status == Preparing || application.status == Ready)
      requires plan.dailyLimit <= highestLimit && heard == NothingYet.(plan := Some(Ok(plan)), trouble := heard.trouble)
      modifies this`desk, this`desks, this`steps, this`heard, this`sights, tailoring
      ensures Valid()
      ensures desk.apps.Keys == old(desk).apps.Keys
      ensures desk.calls == old(desk).calls || desk.calls == old(desk).calls + [Call(loaded.id, loaded.attempts + 1)]
      ensures desk.browserCalls == old(desk).browserCalls ||
        desk.browserCalls == old(desk).browserCalls + [Call(loaded.id, loaded.attempts + 1)]
      ensures desk.calls != old(desk).calls || desk.browserCalls != old(desk).browserCalls ==>
        error.None? ==> !Held(desk.ledger, loaded.id) && AllRestored(tailoring.world, loaded.id)
      ensures CalledFor(old(desk), old(sights), loaded.id)
      ensures OpenIfUnknown(Now(), loaded.id)
      ensures old(heard).trouble <= heard.trouble && heard.plan == old(heard).plan
      ensures heard.trouble == 0 && Timely(now, application) ==>
        if !loaded.prepared && !GoesOn(Now())
        then EndedBefore(Now(), loaded, plan, error) && desk.calls == old(desk).calls
        else ActedAs(Now(), loaded, plan, old(desk), old(desk).ledger, error)
      ensures heard.trouble == 0 && desk.calls != old(desk).calls ==> Worded(Now(), loaded)
    {
      hide Valid, OnlySubmitting, AllRestored, ConcludedAs, AskedBudget, Held;
      var prepared := Continue(application);
      if !application.prepared {
        prepared := Prepare(loaded, application, plan, now);
      }
      if prepared.Finish? {
        return prepared.error;
      }
      error := Act(loaded, prepared.app, plan, now);
    }

    // What the mode asks for.
    method Act(loaded: App, application: App, plan: Plan, now: nat) returns (error: Option<OpError>)
      requires Valid() && Working(loaded, application) && plan.dailyLimit <= highestLimit
      requires application.status == Preparing || application.status == Ready
      requires heard.plan == Some(Ok(plan)) && heard.window.None? && heard.answer.None? && heard.browser.None? &&
        heard.tailored.None? && heard.overrides == []
      modifies this`desk, this`desks, this`steps, this`heard, this`sights, tailoring
      ensures Valid()
      ensures desk.apps.Keys == old(desk).apps.Keys
      ensures desk.calls == old(desk).calls || desk.calls == old(desk).calls + [Call(loaded.id, loaded.attempts + 1)]
      ensures desk.browserCalls == old(desk).browserCalls ||
        desk.browserCalls == old(desk).browserCalls + [Call(loaded.id, loaded.attempts + 1)]
      ensures desk.calls != old(desk).calls || desk.browserCalls != old(desk).browserCalls ==>
        error.None? ==> !Held(desk.ledger, loaded.id) && AllRestored(tailoring.world, loaded.id)
      ensures CalledFor(old(desk), old(sights), loaded.id)
      ensures OpenIfUnknown(Now(), loaded.id)
      ensures NoNews(
        old(heard).(window := heard.window, tailored := heard.tailored, overrides := heard.overrides,
                    answer := heard.answer, browser := heard.browser), heard)
      ensures heard.trouble == 0 && Timely(now, application) ==>
        ActedAs(Now(), loaded, plan, old(desk), old(desk).ledger, error)
      ensures heard.trouble == 0 && desk.calls != old(desk).calls ==> SameWords(desk.apps[loaded.id], application)
    {
      hide Valid, OnlySubmitting, AllRestored;
      match plan.mode
      case DryRunMode => error := Park(loaded, application, DryRun, now);
      case ApprovalMode => error := Park(loaded, application, WaitingApproval, now);
      case SubmitMode =>
        var entered;
        error, entered := Open(loaded, application, plan, now);
        if error.None? {
          var answer;
          error, answer := Submit(entered, plan);
        }
    }

    // Calls are made for a submitting plan only, and a platform call of a tailored one is
    // seen.
    ghost predicate CalledFor(before: Desk, sightsBefore: seq<Sight>, id: string)
      reads this
    {
      (desk.calls != before.calls || desk.browserCalls != before.browserCalls ==>
        heard.plan.Some? && heard.plan.value.Ok? && heard.plan.value.value.mode == SubmitMode) &&
      Sighted(sightsBefore, sights, id,
        desk.calls != before.calls && heard.plan.Some? && heard.plan.value.Ok? && heard.plan.value.value.tailored,
        heard)
    }

    // One delivery of an application's task, alone on its profile's lane. At most one
    // platform submission and one browser submission are made, both under the attempt
    // after the last stored one, and only for an application nothing has been sent for
    // under its current status; success after a submission means the reservation has
    // been settled. A delivery that finds the application inside an attempt never
    // submits and never succeeds.
    method Handle(id: string) returns (error: Option<OpError>)
      requires Valid() && desk.current.None?
      modifies this, tailoring
      ensures Valid() && desk.current.None?
      ensures subject == id && desksBefore == old(desks) && stepsBefore == old(steps)
      ensures id !in old(desk).apps ==>
        error.Some? && desk.calls == old(desk).calls && desk.browserCalls == old(desk).browserCalls
      ensures desk.calls == old(desk).calls ||
        (id in old(desk).apps && desk.calls == old(desk).calls + [Call(id, old(desk).apps[id].attempts + 1)])
      ensures desk.browserCalls == old(desk).browserCalls ||
        (id in old(desk).apps &&
         desk.browserCalls == old(desk).browserCalls + [Call(id, old(desk).apps[id].attempts + 1)])
      ensures desk.calls != old(desk).calls || desk.browserCalls != old(desk).browserCalls ==>
        id in old(desk).apps && Startable(old(desk).apps[id].status) &&
        (error.None? ==> !Held(desk.ledger, id) && AllRestored(tailoring.world, id))
      ensures CalledFor(old(desk), old(sights), id)
      ensures error.None? && id in old(desk).apps ==>
        old(desk).apps[id].status in {Submitted, Failed, PendingReconcile} ==> AllRestored(tailoring.world, id)
      ensures error.None? && id in old(desk).apps && old(desk).apps[id].status == Submitted ==>
        id in desk.ledger && desk.ledger[id].state == Committed
      ensures error.None? && id in old(desk).apps && old(desk).apps[id].status in {Failed, PendingReconcile} ==>
        !Held(desk.ledger, id) && id in desk.apps && !InFlight(desk.apps[id].status)
      ensures id in old(desk).apps && old(desk).apps[id].status == Submitting ==>
        error.Some? && id in desk.apps && InFlight(desk.apps[id].status)
      ensures heard.answer.Some? && heard.answer.value.Err? && Unknown(heard.answer.value.error) ==>
        Parked(desk, id) && Held(desk.ledger, id)
      ensures heard.trouble == 0 && id in old(desk).apps ==> HandledAs(Now(), old(desk).apps[id], old(desk), error)
      ensures heard.trouble == 0 && desk.calls != old(desk).calls ==> Worded(Now(), old(desk).apps[id])
    {
      hide Valid, HandledAs, AllRestored, OnlySubmitting;
      Begin(id);
      if id !in desk.apps {
        return Some(Foreign);
      }
      hide Sighted;
      SubjectKept();
      error := Run(desk.apps[id]);
      ghost var before := Now();
      Leave();
      HandledStays(before, Now(), old(desk).apps[id], old(desk), error);
    }

    // The end of an invocation.
    method Leave()
      requires Valid()
      modifies this`desk, this`desks, this`steps
      ensures Valid() && desk == old(desk).(current := None, lastError := None)
    {
      Take(desk.(current := None, lastError := None), Forget);
    }

    // A new invocation.
    ghost method Begin(id: string)
      requires Valid()
      modifies this`subject, this`desksBefore, this`stepsBefore, this`heard
      ensures Valid() && subject == id && desksBefore == desks && stepsBefore == steps
      ensures heard == NothingYet
    {
      subject := id;
      desksBefore := desks;
      stepsBefore := steps;
      heard := NothingYet;
    }
  }
}
