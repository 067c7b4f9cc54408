// The application record of core/application.go and its transitions.
module Application {
  import opened Text
  import opened Wrappers

  datatype Status =
    | New | Preparing | WaitingValidation | WaitingApproval | Ready | Submitting
    | PendingReconcile | Submitted | DryRun | Skipped | Failed

  datatype Category =
    | Unsupported | Unauthorized | RateLimited | QuotaExceeded | ValidationRequired | Temporary
    | Permanent | ConfirmationRequired | Ambiguous | Conflict

  // Where a prepared message comes from. A record of it is valid in itself or not, and
  // carries the digest of some text; digests of different texts differ.
  datatype Provenance = Unrecorded | Recorded(valid: bool, digestOf: string)

  // The fields that steer the submit protocol. prepared says whether PreparedAt is set.
  datatype App = App(
    id: string, status: Status, attempts: nat, prepared: bool, resumeId: string, message: string,
    decision: string, reason: string, provenance: Provenance,
    failure: Option<Category>, submittedAt: Option<nat>, updatedAt: nat)

  function Successors(from: Status): set<Status> {
    match from
    case New => {Preparing, Skipped, Failed}
    case Preparing => {WaitingValidation, WaitingApproval, Ready, DryRun, Skipped, Failed}
    case WaitingValidation => {Preparing, Ready, Skipped, Failed}
    case WaitingApproval => {Preparing, Ready, Skipped, Failed}
    case Ready => {Submitting, WaitingValidation, WaitingApproval, DryRun, Skipped, Failed}
    case Submitting => {Submitted, Ready, WaitingValidation, Skipped, PendingReconcile, Failed}
    case PendingReconcile => {Submitted, Failed}
    case Submitted => {}
    case DryRun => {}
    case Skipped => {Ready}
    case Failed => {Ready}
  }

  predicate MayMove(a: App, to: Status, now: nat) {
    now > 0 && now >= a.updatedAt && to in Successors(a.status)
  }

  // The record after one permitted transition.
  function Moved(a: App, to: Status, now: nat): App {
    var moved := a.(status := to, updatedAt := now);
    var counted := if to == Submitting then moved.(attempts := a.attempts + 1) else moved;
    if to == Submitted then counted.(submittedAt := Some(now), failure := None) else counted
  }

  // Which transitions there are, and when: never back in time.
  lemma MayMoveTold(a: App, to: Status, now: nat)
    ensures MayMove(a, to, now) <==> (now > 0 && now >= a.updatedAt && match to
      case New => false
      case Preparing => a.status in {New, WaitingValidation, WaitingApproval}
      case WaitingValidation => a.status in {Preparing, Ready, Submitting}
      case WaitingApproval => a.status in {Preparing, Ready}
      case Ready => a.status in {Preparing, WaitingValidation, WaitingApproval, Submitting, Failed, Skipped}
      case Submitting => a.status == Ready
      case PendingReconcile => a.status == Submitting
      case Submitted => a.status in {Submitting, PendingReconcile}
      case DryRun => a.status in {Preparing, Ready}
      case Skipped => a.status in {New, Preparing, WaitingValidation, WaitingApproval, Ready, Submitting}
      case Failed => a.status !in {Submitted, DryRun, Skipped, Failed})
  {
  }

  // What a transition changes: status and time, the count of attempts on entering one, and
  // on submission its time and whatever failure there was.
  lemma MovedTold(a: App, to: Status, now: nat)
    ensures
      var b := Moved(a, to, now);
      b.status == to && b.updatedAt == now && b.attempts == a.attempts + (if to == Submitting then 1 else 0) &&
      b.submittedAt == (if to == Submitted then Some(now) else a.submittedAt) &&
      b.failure == (if to == Submitted then None else a.failure) &&
      b == a.(status := b.status, updatedAt := b.updatedAt, attempts := b.attempts, submittedAt := b.submittedAt,
        failure := b.failure)
  {
  }

  // What sending back forgets, and what it keeps: the attempts.
  lemma ResetTold(a: App, now: nat)
    ensures
      var b := ResetApp(a, now);
      b.status == Ready && b.updatedAt == now && b.attempts == a.attempts && b.id == a.id && !b.prepared &&
      b.decision == "" && b.reason == "" && b.resumeId == "" && b.message == "" && b.provenance == Unrecorded &&
      b.failure == None && b.submittedAt == a.submittedAt
  {
  }

  // The status was reached from a status an attempt cannot be under way in.
  predicate Idle(s: Status) {
    s == New || s == Preparing || s == WaitingValidation || s == WaitingApproval || s == Ready ||
    s == Skipped || s == Failed || s == DryRun
  }

  // A platform call may have been made whose outcome is not stored yet.
  predicate InFlight(s: Status) {
    s == Submitting || s == PendingReconcile
  }

  // A record on which a worker calls the transitions of core/application.go.
  class ApplicationDraft {
    var app: App

    constructor (stored: App)
      ensures app == stored
    {
      app := stored;
    }

    method Transition(to: Status, now: nat) returns (ok: bool)
      modifies this
      ensures ok <==> MayMove(old(app), to, now)
      ensures app == if ok then Moved(old(app), to, now) else old(app)
    {
      if now == 0 || now < app.updatedAt {
        return false;
      }
      if to !in Successors(app.status) {
        return false;
      }
      app := app.(status := to);
      app := app.(updatedAt := now);
      if to == Submitting {
        app := app.(attempts := app.attempts + 1);
      }
      if to == Submitted {
        app := app.(submittedAt := Some(now));
        app := app.(failure := None);
      }
      ok := true;
    }

    method Fail(category: Category, now: nat) returns (ok: bool)
      modifies this
      ensures ok <==> MayMove(old(app), Failed, now)
      ensures app == if ok then Moved(old(app), Failed, now).(failure := Some(category)) else old(app)
    {
      ok := Transition(Failed, now);
      if ok {
        app := app.(failure := Some(category));
      }
    }

    // Only a blocked, failed or skipped application is sent back; its preparation
    // and failure are forgotten, its attempts are not.
    method ResetForRetry(now: nat) returns (ok: bool)
      modifies this
      ensures ok <==>
        ((old(app).status == WaitingValidation || old(app).status == Failed || old(app).status == Skipped) &&
         now > 0 && now >= old(app).updatedAt)
      ensures app == if ok then ResetApp(old(app), now) else old(app)
    {
      if app.status != WaitingValidation && app.status != Failed && app.status != Skipped {
        return false;
      }
      ok := Transition(Ready, now);
      if ok {
        app := app.(decision := "", reason := "", resumeId := "", message := "", provenance := Unrecorded);
        app := app.(prepared := false, failure := None);
      }
    }

    // Records what the submission will say. A provenance must be valid and must carry
    // the digest of the very message that is stored.
    method RecordPreparation(code: string, reason: string, resumeId: string, message: string,
        provenance: Provenance, now: nat) returns (ok: bool)
      modifies this
      ensures ok <==>
        (old(app).status == Preparing || old(app).status == Ready) && !Blank(code) && !Blank(reason) &&
        (provenance == Unrecorded || provenance == Recorded(true, Trim(message))) &&
        now > 0 && now >= old(app).updatedAt
      ensures app == if !ok then old(app) else
        old(app).(decision := Trim(code), reason := Trim(reason), resumeId := Trim(resumeId),
          message := Trim(message), provenance := provenance, prepared := true, updatedAt := now)
    {
      if app.status != Preparing && app.status != Ready {
        return false;
      }
      var trimmedCode, trimmedReason := Trim(code), Trim(reason);
      if trimmedCode == "" || trimmedReason == "" {
        return false;
      }
      if provenance.Recorded? && !provenance.valid {
        return false;
      }
      var trimmedMessage := Trim(message);
      if provenance.Recorded? && provenance.digestOf != trimmedMessage {
        return false;
      }
      if now == 0 || now < app.updatedAt {
        return false;
      }
      app := app.(decision := trimmedCode, reason := trimmedReason, resumeId := Trim(resumeId));
      app := app.(message := trimmedMessage, provenance := provenance);
      app := app.(prepared := true, updatedAt := now);
      ok := true;
    }
  }

  function ResetApp(a: App, now: nat): App {
    Moved(a, Ready, now).(
      decision := "", reason := "", resumeId := "", message := "", provenance := Unrecorded, prepared := false,
      failure := None)
  }

  // A chain of transitions from one status to another.
  ghost predicate Chain(states: seq<Status>) {
    forall i :: 0 <= i < |states| - 1 ==> states[i + 1] in Successors(states[i])
  }

  // An unsettled submission is never re-submitted without passing reconciliation or a
  // definite outcome: from PendingReconcile every chain back to Submitting goes
  // through Failed and then Ready.
  lemma {:induction false} PendingResubmitsThroughFailed(states: seq<Status>, j: nat)
    requires Chain(states) && states != [] && states[0] == PendingReconcile
    requires j < |states| && states[j] == Submitting
    ensures exists k :: 0 < k < j - 1 && states[k] == Failed && states[k + 1] == Ready
  {
    assert states[1] in Successors(states[0]);
    assert j == 1 || states[2] in Successors(states[1]);
    assert states[1] == Failed && states[2] == Ready;
    assert 0 < 1 < j - 1 && states[1] == Failed && states[1 + 1] == Ready;
  }

  // A way back to Submitting that settles nothing as failed.
  ghost predicate WayBack(from: Status, states: seq<Status>) {
    Chain(states) && |states| > 1 && states[0] == from && states[|states| - 1] == Submitting && Failed !in states
  }

  // After which statuses an application may be submitted again without being settled
  // as failed: all but an open outcome, a failure, and the final statuses.
  lemma WayBackExactly(from: Status)
    ensures (exists states :: WayBack(from, states)) <==> from !in {PendingReconcile, Submitted, DryRun, Failed}
  {
    if from in {PendingReconcile, Submitted, DryRun, Failed} {
      forall states ensures !WayBack(from, states) {
        if WayBack(from, states) {
          NoWayBack(from, states);
        }
      }
    } else {
      var path := Shortest(from);
      assert WayBack(from, path);
    }
  }

  lemma Link(states: seq<Status>, i: nat)
    requires Chain(states) && i < |states| - 1
    ensures states[i + 1] in Successors(states[i])
  {
  }

  lemma NoWayBack(from: Status, states: seq<Status>)
    requires from in {PendingReconcile, Submitted, DryRun, Failed}
    ensures !WayBack(from, states)
  {
    if WayBack(from, states) {
      assert states[1] in states;
      Link(states, 0);
      if |states| > 2 {
        Link(states, 1);
      }
    }
  }

  function Shortest(from: Status): seq<Status> {
    match from
    case New => [New, Preparing, Ready, Submitting]
    case Ready => [Ready, Submitting]
    case _ => [from, Ready, Submitting]
  }
}
