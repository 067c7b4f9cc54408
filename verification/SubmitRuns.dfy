// The submit protocol as a step system over what is durable: the stored
// applications, the budget ledger, and the calls the platform has received. Every
// effect of worker/application.go is one step; when an invocation ends or the
// process dies, what it was submitting is forgotten. Runs of one profile are
// serialised by its lane. Whoever else changes applications (the retry workflow, the
// approval tool, the validation refresh) works outside the lane: it loads a copy,
// changes it, and saves it later if the stored status is still that of the copy.
module SubmitRuns {
  import opened Wrappers
  import opened Uniqueness
  import opened Application

  datatype LedgerState = Reserved | Committed | Released

  // A day window is identified by its start.
  datatype Reservation = Reservation(window: nat, state: LedgerState)

  // One submission the platform has received: whose, and under which attempt.
  datatype Call = Call(app: string, attempt: nat)

  // copies holds everything ever loaded outside the lane. The last four fields are what
  // the worker's one process remembers: what it is submitting, which calls it has made
  // for it, and the last error it saw.
  datatype Desk = Desk(
    apps: map<string, App>,
    ledger: map<string, Reservation>,
    calls: seq<Call>,
    browserCalls: seq<Call>,
    copies: set<App>,
    current: Option<string>,
    called: bool,
    browsed: bool,
    lastError: Option<Category>)

  datatype Step =
    | Store(app: App)
    | Reserve(id: string, window: nat, limit: nat)
    | Commit(id: string)
    | Release(id: string)
    | CallPlatform(id: string)
    | Report(category: Category)
    | CallBrowser(id: string)
    | Load(id: string)
    | Revise(copy: App, after: App)
    | Forget

  // ---- the budget ledger ----

  function UsedBy(ledger: map<string, Reservation>, window: nat): set<string> {
    set id | id in ledger && ledger[id].window == window && ledger[id].state != Released
  }

  function Used(ledger: map<string, Reservation>, window: nat): nat {
    |UsedBy(ledger, window)|
  }

  datatype ReserveResult = Granted | Exhausted | Refused

  // A reservation of an earlier window is released before a new one is made.
  function WithoutStale(ledger: map<string, Reservation>, id: string, window: nat): map<string, Reservation> {
    if id in ledger && ledger[id].window != window then ledger[id := ledger[id].(state := Released)] else ledger
  }

  function ReserveOutcome(ledger: map<string, Reservation>, id: string, window: nat, limit: nat): ReserveResult {
    if id in ledger && ledger[id].window > window then Refused
    else if id in ledger && ledger[id].window == window && ledger[id].state != Released then Granted
    else if Used(WithoutStale(ledger, id, window), window) >= limit then Exhausted
    else Granted
  }

  function AfterReserve(ledger: map<string, Reservation>, id: string, window: nat, limit: nat)
    : map<string, Reservation>
  {
    if id in ledger && ledger[id].window > window then ledger
    else if id in ledger && ledger[id].window == window && ledger[id].state != Released then ledger
    else if Used(WithoutStale(ledger, id, window), window) >= limit then WithoutStale(ledger, id, window)
    else ledger[id := Reservation(window, Reserved)]
  }

  predicate Held(ledger: map<string, Reservation>, id: string) {
    id in ledger && ledger[id].state == Reserved
  }

  // Settling is idempotent and refuses to reopen a final reservation.
  predicate MayFinish(ledger: map<string, Reservation>, id: string, target: LedgerState) {
    if id in ledger then ledger[id].state == target || ledger[id].state == Reserved else target == Released
  }

  function Finished(ledger: map<string, Reservation>, id: string, target: LedgerState): map<string, Reservation> {
    if id in ledger then ledger[id := ledger[id].(state := target)] else ledger
  }

  // ---- steps ----

  // What the worker may store over a loaded application.
  ghost predicate StoreAllowed(d: Desk, before: App, after: App) {
    after.id == before.id &&
    after.attempts == before.attempts + (if after.status == Submitting then 1 else 0) &&
    match before.status
    case Submitting =>
      if d.current == Some(before.id) then after.status in Successors(Submitting) else after.status == PendingReconcile
    case PendingReconcile => after.status == Submitted || after.status == Failed
    case Submitted => false
    case DryRun => false
    case Skipped => false
    case Failed => false
    case WaitingApproval => false
    case _ =>
      if after.status == Submitting then Held(d.ledger, before.id)
      else Idle(after.status) && after.status != New
  }

  // What is made of a copy outside the lane: an operator sends it back or approves it,
  // or the validation refresh finds the vacancy closed.
  predicate Revision(copy: App, after: App) {
    after.updatedAt > 0 && after.updatedAt >= copy.updatedAt &&
    match copy.status
    case WaitingValidation =>
      after == ResetApp(copy, after.updatedAt) ||
      after == Moved(copy.(decision := "vacancy_closed", reason := after.reason), Skipped, after.updatedAt)
    case Failed => after == ResetApp(copy, after.updatedAt)
    case Skipped => after == ResetApp(copy, after.updatedAt)
    case WaitingApproval => after == Moved(copy, Ready, after.updatedAt)
    case _ => false
  }

  function Stored(d: Desk, a: App): Desk {
    if a.status == Submitting then
      d.(apps := d.apps[a.id := a], current := Some(a.id), called := false, browsed := false, lastError := None)
    else
      d.(apps := d.apps[a.id := a], current := if d.current == Some(a.id) then None else d.current)
  }

  ghost predicate Underway(d: Desk, id: string) {
    d.current == Some(id) && id in d.apps && d.apps[id].status == Submitting
  }

  ghost predicate Settleable(d: Desk, id: string) {
    id in d.apps && !InFlight(d.apps[id].status) && d.apps[id].status != Submitted
  }

  ghost predicate Next(d: Desk, d': Desk, s: Step) {
    match s
    case Store(a) => a.id in d.apps && StoreAllowed(d, d.apps[a.id], a) && d' == Stored(d, a)
    case Reserve(id, window, limit) =>
      Settleable(d, id) && d' == d.(ledger := AfterReserve(d.ledger, id, window, limit))
    case Commit(id) =>
      id in d.apps && d.apps[id].status == Submitted && MayFinish(d.ledger, id, Committed) &&
      d' == d.(ledger := Finished(d.ledger, id, Committed))
    case Release(id) =>
      Settleable(d, id) && MayFinish(d.ledger, id, Released) && d' == d.(ledger := Finished(d.ledger, id, Released))
    case CallPlatform(id) =>
      Underway(d, id) && !d.called && !d.browsed &&
      d' == d.(calls := d.calls + [Call(id, d.apps[id].attempts)], called := true)
    case Report(category) => d' == d.(lastError := Some(category))
    case CallBrowser(id) =>
      Underway(d, id) && !d.browsed && d.lastError == Some(ConfirmationRequired) &&
      d' == d.(browserCalls := d.browserCalls + [Call(id, d.apps[id].attempts)], browsed := true)
    case Load(id) => id in d.apps && d' == d.(copies := d.copies + {d.apps[id]})
    case Revise(copy, after) =>
      copy in d.copies && copy.id in d.apps && d.apps[copy.id].status == copy.status && Revision(copy, after) &&
      d' == d.(apps := d.apps[copy.id := after])
    case Forget => d' == d.(current := None, lastError := None)
  }

  ghost predicate IsRun(desks: seq<Desk>, steps: seq<Step>) {
    |desks| == |steps| + 1 && forall i :: 0 <= i < |steps| ==> Next(desks[i], desks[i + 1], steps[i])
  }

  // ---- what every run keeps, whatever is saved from however old a copy ----

  // An attempt under way holds its reservation; a submitted application holds or has
  // used one; nothing else has used one.
  ghost predicate Funded(d: Desk, id: string) {
    (id in d.apps && InFlight(d.apps[id].status) ==> Held(d.ledger, id)) &&
    (id in d.apps && d.apps[id].status == Submitted ==> id in d.ledger && d.ledger[id].state != Released) &&
    (id in d.apps && id in d.ledger && d.ledger[id].state == Committed ==> d.apps[id].status == Submitted)
  }

  ghost predicate WellKept(d: Desk) {
    (forall id :: id in d.apps ==> d.apps[id].id == id) &&
    (forall id :: id in d.apps ==> Funded(d, id)) &&
    (forall id :: id in d.apps && d.apps[id].status == Submitting ==> d.apps[id].attempts >= 1) &&
    (d.current.Some? ==> Underway(d, d.current.value))
  }

  lemma KeysStay(d: Desk, d': Desk, s: Step)
    requires Next(d, d', s)
    ensures d'.apps.Keys == d.apps.Keys
  {
  }

  lemma FundedStep(d: Desk, d': Desk, s: Step, id: string)
    requires Next(d, d', s) && forall k :: k in d.apps ==> d.apps[k].id == k
    requires id in d.apps && Funded(d, id)
    ensures Funded(d', id)
  {
    match s
    case Store(a) =>
      if a.id == id {
        assert StoreAllowed(d, d.apps[id], a);
      } else {
        hide StoreAllowed;
      }
    case _ =>
      hide StoreAllowed;
  }

  // Applications stay, each under its id; their attempts grow when Submitting is stored
  // and may otherwise change only by a revision.
  lemma AttemptsStep(d: Desk, d': Desk, s: Step, id: string)
    requires Next(d, d', s) && id in d.apps && forall k :: k in d.apps ==> d.apps[k].id == k
    ensures d'.apps.Keys == d.apps.Keys && d'.apps[id].id == id
    ensures !s.Revise? ==> d.apps[id].attempts <= d'.apps[id].attempts <= d.apps[id].attempts + 1
    ensures d'.apps[id].status == Submitting ==> d'.apps[id].attempts >= 1 || d'.apps[id] == d.apps[id]
  {
    match s
    case Store(a) =>
      if a.id == id {
        assert StoreAllowed(d, d.apps[id], a);
      }
    case _ =>
  }

  lemma StoredIsUnderway(d: Desk, d': Desk, s: Step)
    requires WellKept(d) && Next(d, d', s) && d'.current.Some?
    ensures Underway(d', d'.current.value)
  {
    match s
    case Store(a) =>
      assert a.id in d.apps;
    case _ =>
  }

  lemma WellKeptStep(d: Desk, d': Desk, s: Step)
    requires WellKept(d) && Next(d, d', s)
    ensures WellKept(d')
  {
    forall id | id in d'.apps
      ensures d'.apps[id].id == id && Funded(d', id)
      ensures d'.apps[id].status == Submitting ==> d'.apps[id].attempts >= 1
    {
      KeysStay(d, d', s);
      AttemptsStep(d, d', s, id);
      FundedStep(d, d', s, id);
    }
    if d'.current.Some? {
      StoredIsUnderway(d, d', s);
    }
    hide Next, Funded, Underway;
  }

  lemma {:induction false} WellKeptRun(desks: seq<Desk>, steps: seq<Step>, i: nat)
    requires IsRun(desks, steps) && WellKept(desks[0]) && i < |desks|
    ensures WellKept(desks[i])
  {
    hide Next, WellKept;
    if i > 0 {
      WellKeptRun(desks, steps, i - 1);
      WellKeptStep(desks[i - 1], desks[i], steps[i - 1]);
    }
  }

  // ---- the daily budget ----

  ghost predicate WithinLimit(ledger: map<string, Reservation>, limit: nat) {
    forall window :: Used(ledger, window) <= limit
  }

  lemma ReserveKeepsLimit(ledger: map<string, Reservation>, id: string, window: nat, asked: nat, limit: nat)
    requires WithinLimit(ledger, limit) && asked <= limit
    ensures WithinLimit(AfterReserve(ledger, id, window, asked), limit)
  {
    var stale := WithoutStale(ledger, id, window);
    var after := AfterReserve(ledger, id, window, asked);
    forall w ensures Used(after, w) <= limit {
      assert Used(ledger, w) <= limit;
      assert UsedBy(stale, w) <= UsedBy(ledger, w);
      SubsetSize(UsedBy(stale, w), UsedBy(ledger, w));
      if after == ledger[id := Reservation(window, Reserved)] {
        if w == window {
          assert UsedBy(after, w) <= UsedBy(stale, w) + {id};
          SubsetSize(UsedBy(after, w), UsedBy(stale, w) + {id});
        } else {
          assert UsedBy(after, w) <= UsedBy(ledger, w);
          SubsetSize(UsedBy(after, w), UsedBy(ledger, w));
        }
      }
    }
  }

  // The other reservations that count against the window.
  function OthersIn(ledger: map<string, Reservation>, id: string, window: nat): set<string> {
    UsedBy(ledger, window) - {id}
  }

  // When a reservation is granted: none of a later window stands in the way, and the
  // application counts against this window already or the others leave room. It then counts
  // against this window and no other application's reservation has changed.
  lemma GrantedExactly(ledger: map<string, Reservation>, id: string, window: nat, limit: nat)
    ensures ReserveOutcome(ledger, id, window, limit) == Granted <==>
      (id in ledger ==> ledger[id].window <= window) &&
      (id in UsedBy(ledger, window) || |OthersIn(ledger, id, window)| < limit)
    ensures ReserveOutcome(ledger, id, window, limit) == Refused <==> id in ledger && ledger[id].window > window
    ensures ReserveOutcome(ledger, id, window, limit) == Granted ==>
      id in UsedBy(AfterReserve(ledger, id, window, limit), window)
    ensures ReserveOutcome(ledger, id, window, limit) == Refused ==>
      AfterReserve(ledger, id, window, limit) == ledger
    ensures ReserveOutcome(ledger, id, window, limit) == Exhausted ==>
      AfterReserve(ledger, id, window, limit).Keys == ledger.Keys &&
      (id in ledger ==> AfterReserve(ledger, id, window, limit)[id] == ledger[id].(state := Released))
    ensures forall other :: other != id ==>
      (other in AfterReserve(ledger, id, window, limit) <==> other in ledger) &&
      (other in ledger ==> AfterReserve(ledger, id, window, limit)[other] == ledger[other])
  {
    if id !in UsedBy(ledger, window) {
      assert UsedBy(WithoutStale(ledger, id, window), window) == OthersIn(ledger, id, window);
    }
  }

  // What settling does: the reservation takes the state, at once or again, and a final one is
  // not reopened; without one there is nothing to use, and nothing to release.
  lemma SettledTold(ledger: map<string, Reservation>, id: string, target: LedgerState)
    ensures MayFinish(ledger, id, target) <==>
      (id !in ledger && target == Released) ||
      (id in ledger && (ledger[id].state == Reserved || ledger[id].state == target))
    ensures Finished(ledger, id, target).Keys == ledger.Keys
    ensures id in ledger ==> Finished(ledger, id, target)[id] == Reservation(ledger[id].window, target)
    ensures forall other :: other in ledger && other != id ==> Finished(ledger, id, target)[other] == ledger[other]
  {
  }

  lemma SettleKeepsLimit(ledger: map<string, Reservation>, id: string, target: LedgerState, limit: nat)
    requires WithinLimit(ledger, limit) && MayFinish(ledger, id, target)
    ensures WithinLimit(Finished(ledger, id, target), limit)
  {
    forall w ensures Used(Finished(ledger, id, target), w) <= limit {
      assert Used(ledger, w) <= limit;
      assert UsedBy(Finished(ledger, id, target), w) <= UsedBy(ledger, w);
      SubsetSize(UsedBy(Finished(ledger, id, target), w), UsedBy(ledger, w));
    }
  }

  // No reservation is asked for under a limit above the given one.
  ghost predicate LimitsWithin(steps: seq<Step>, limit: nat) {
    forall i :: 0 <= i < |steps| && steps[i].Reserve? ==> steps[i].limit <= limit
  }

  lemma {:induction false} BudgetKept(desks: seq<Desk>, steps: seq<Step>, i: nat, limit: nat)
    requires IsRun(desks, steps) && LimitsWithin(steps, limit) && WithinLimit(desks[0].ledger, limit) && i < |desks|
    ensures WithinLimit(desks[i].ledger, limit)
  {
    if i > 0 {
      BudgetKept(desks, steps, i - 1, limit);
      var d, d', s := desks[i - 1], desks[i], steps[i - 1];
      assert Next(d, d', s);
      match s
      case Reserve(id, window, asked) => ReserveKeepsLimit(d.ledger, id, window, asked, limit);
      case Commit(id) => SettleKeepsLimit(d.ledger, id, Committed, limit);
      case Release(id) => SettleKeepsLimit(d.ledger, id, Released, limit);
      case _ =>
    }
  }

  // The applications submitted, or possibly submitted, against a day window.
  ghost function SpentOn(d: Desk, window: nat): set<string> {
    set id | id in d.apps && (d.apps[id].status == Submitted || InFlight(d.apps[id].status)) &&
      id in d.ledger && d.ledger[id].window == window
  }

  // Main result on the budget: across crashes, an attempt whose outcome is open holds
  // its reservation, a submitted application holds or has used one, and so no window
  // ever carries more submissions than its daily limit.
  lemma DailyLimitKept(desks: seq<Desk>, steps: seq<Step>, i: nat, limit: nat, window: nat)
    requires IsRun(desks, steps) && WellKept(desks[0]) && i < |desks|
    requires LimitsWithin(steps, limit) && WithinLimit(desks[0].ledger, limit)
    ensures |SpentOn(desks[i], window)| <= limit
    ensures forall id :: id in desks[i].apps ==> Funded(desks[i], id)
  {
    WellKeptRun(desks, steps, i);
    BudgetKept(desks, steps, i, limit);
    assert Used(desks[i].ledger, window) <= limit;
    forall id | id in SpentOn(desks[i], window) ensures id in UsedBy(desks[i].ledger, window) {
      assert Funded(desks[i], id);
    }
    SubsetSize(SpentOn(desks[i], window), UsedBy(desks[i].ledger, window));
  }
}
