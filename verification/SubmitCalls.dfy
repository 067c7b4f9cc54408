// What the submissions of every run have in common: how they relate to the stored
// attempts, and what has to happen before a further one.
module SubmitCalls {
  import opened Wrappers
  import opened Uniqueness
  import opened Application
  import opened SubmitRuns

  // ---- calls and attempts ----

  // Calls never run ahead of the stored attempts, and none is repeated under an attempt.
  ghost predicate CallsCovered(apps: map<string, App>, calls: seq<Call>) {
    (forall i :: 0 <= i < |calls| ==>
      calls[i].app in apps && 1 <= calls[i].attempt <= apps[calls[i].app].attempts) &&
    forall i, j :: 0 <= i < j < |calls| ==> calls[i] != calls[j]
  }

  ghost predicate BothCovered(d: Desk) {
    CallsCovered(d.apps, d.calls) && CallsCovered(d.apps, d.browserCalls)
  }

  // The calls the worker may still make have not been made.
  ghost predicate Unspent(d: Desk) {
    d.current.Some? && d.current.value in d.apps ==>
      (!d.called ==> Call(d.current.value, d.apps[d.current.value].attempts) !in d.calls) &&
      (!d.browsed ==> Call(d.current.value, d.apps[d.current.value].attempts) !in d.browserCalls)
  }

  ghost predicate Covered(d: Desk) {
    BothCovered(d) && Unspent(d)
  }

  lemma CallsStayCovered(apps: map<string, App>, apps': map<string, App>, calls: seq<Call>)
    requires CallsCovered(apps, calls)
    requires forall id :: id in apps ==> id in apps' && apps'[id].attempts >= apps[id].attempts
    ensures CallsCovered(apps', calls)
  {
  }

  lemma CallAdded(apps: map<string, App>, calls: seq<Call>, id: string)
    requires CallsCovered(apps, calls) && id in apps && apps[id].attempts >= 1
    requires Call(id, apps[id].attempts) !in calls
    ensures CallsCovered(apps, calls + [Call(id, apps[id].attempts)])
  {
    var longer := calls + [Call(id, apps[id].attempts)];
    forall i, j | 0 <= i < j < |longer| ensures longer[i] != longer[j] {
      if j == |calls| {
        assert calls[i] in calls;
      }
    }
  }

  lemma NewAttemptUncalled(apps: map<string, App>, calls: seq<Call>, id: string)
    requires CallsCovered(apps, calls) && id in apps
    ensures Call(id, apps[id].attempts + 1) !in calls
  {
  }

  // No submission of the application was made under an attempt the copy does not know.
  ghost predicate Within(calls: seq<Call>, copy: App) {
    forall i :: 0 <= i < |calls| && calls[i].app == copy.id ==> calls[i].attempt <= copy.attempts
  }

  ghost predicate NotOutrun(d: Desk, copy: App) {
    Within(d.calls, copy) && Within(d.browserCalls, copy)
  }

  // What a caller can look up: a copy whose attempts are still the stored ones is not
  // outrun.
  lemma CurrentIsNotOutrun(d: Desk, copy: App)
    requires BothCovered(d) && copy.id in d.apps && d.apps[copy.id].attempts == copy.attempts
    ensures NotOutrun(d, copy)
  {
  }

  lemma RevisionKeeps(apps: map<string, App>, calls: seq<Call>, copy: App, after: App)
    requires CallsCovered(apps, calls) && copy.id in apps && Revision(copy, after)
    ensures CallsCovered(apps[copy.id := after], calls) <==> Within(calls, copy)
  {
    assert after.attempts == copy.attempts;
    if CallsCovered(apps[copy.id := after], calls) {
      forall i | 0 <= i < |calls| && calls[i].app == copy.id ensures calls[i].attempt <= copy.attempts {
      }
    }
  }

  // One revision, exactly: it keeps the calls covered if and only if its copy has not
  // been outrun by a submission.
  lemma RevisionKeepsExactly(d: Desk, d': Desk, copy: App, after: App)
    requires Next(d, d', Revise(copy, after)) && BothCovered(d)
    ensures BothCovered(d') <==> NotOutrun(d, copy)
  {
    RevisionKeeps(d.apps, d.calls, copy, after);
    RevisionKeeps(d.apps, d.browserCalls, copy, after);
  }

  lemma StoreCovered(d: Desk, d': Desk, a: App)
    requires WellKept(d) && Covered(d) && Next(d, d', Store(a))
    ensures Covered(d')
  {
    forall id | id in d.apps ensures id in d'.apps && d'.apps[id].attempts >= d.apps[id].attempts {
      AttemptsStep(d, d', Store(a), id);
    }
    CallsStayCovered(d.apps, d'.apps, d.calls);
    CallsStayCovered(d.apps, d'.apps, d.browserCalls);
    NewAttemptUncalled(d.apps, d.calls, a.id);
    NewAttemptUncalled(d.apps, d.browserCalls, a.id);
  }

  lemma CallCovered(d: Desk, d': Desk, s: Step)
    requires WellKept(d) && Covered(d) && Next(d, d', s) && (s.CallPlatform? || s.CallBrowser?)
    ensures Covered(d')
  {
    CallAdded(d.apps, if s.CallPlatform? then d.calls else d.browserCalls, s.id);
  }

  lemma RevisionCovered(d: Desk, d': Desk, copy: App, after: App)
    requires WellKept(d) && Covered(d) && Next(d, d', Revise(copy, after)) && NotOutrun(d, copy)
    ensures Covered(d')
  {
    RevisionKeepsExactly(d, d', copy, after);
  }

  lemma CoveredStep(d: Desk, d': Desk, s: Step)
    requires WellKept(d) && Covered(d) && Next(d, d', s) && (s.Revise? ==> NotOutrun(d, s.copy))
    ensures Covered(d')
  {
    match s
    case Store(a) => StoreCovered(d, d', a);
    case CallPlatform(_) => CallCovered(d, d', s);
    case CallBrowser(_) => CallCovered(d, d', s);
    case Revise(copy, after) => RevisionCovered(d, d', copy, after);
    case _ =>
  }

  // No copy saved in the first steps had been outrun.
  ghost predicate NothingOutrun(desks: seq<Desk>, steps: seq<Step>, n: nat)
    requires |desks| == |steps| + 1 && n <= |steps|
  {
    forall k :: 0 <= k < n && steps[k].Revise? ==> NotOutrun(desks[k], steps[k].copy)
  }

  lemma {:induction false} CoveredRun(desks: seq<Desk>, steps: seq<Step>, n: nat)
    requires IsRun(desks, steps) && WellKept(desks[0]) && Covered(desks[0]) && n <= |steps|
    requires NothingOutrun(desks, steps, n)
    ensures Covered(desks[n])
  {
    hide Next, WellKept, Covered, NotOutrun;
    if n > 0 {
      CoveredRun(desks, steps, n - 1);
      WellKeptRun(desks, steps, n - 1);
      CoveredStep(desks[n - 1], desks[n], steps[n - 1]);
    }
  }

  // The first outrun copy breaks the cover.
  lemma {:induction false} OutrunBreaks(desks: seq<Desk>, steps: seq<Step>, n: nat) returns (k: nat)
    requires IsRun(desks, steps) && WellKept(desks[0]) && Covered(desks[0]) && n <= |steps|
    requires !NothingOutrun(desks, steps, n)
    ensures k < n && !BothCovered(desks[k + 1])
  {
    hide Next, WellKept, BothCovered, NotOutrun;
    if NothingOutrun(desks, steps, n - 1) {
      k := n - 1;
      assert steps[k].Revise? && !NotOutrun(desks[k], steps[k].copy);
      CoveredRun(desks, steps, k);
      RevisionKeepsExactly(desks[k], desks[k + 1], steps[k].copy, steps[k].after);
    } else {
      k := OutrunBreaks(desks, steps, n - 1);
    }
  }

  // Main result: over every run of redeliveries, crashes and changes from outside the
  // lane, all submissions stay covered by stored attempts, none repeated, if and only if
  // no copy is saved after a submission it does not know of.
  lemma CoveredExactly(desks: seq<Desk>, steps: seq<Step>)
    requires IsRun(desks, steps) && WellKept(desks[0]) && Covered(desks[0])
    ensures (forall i :: 0 <= i < |desks| ==> BothCovered(desks[i])) <==> NothingOutrun(desks, steps, |steps|)
  {
    if NothingOutrun(desks, steps, |steps|) {
      forall i | 0 <= i < |desks| ensures BothCovered(desks[i]) {
        CoveredRun(desks, steps, i);
      }
    } else {
      var k := OutrunBreaks(desks, steps, |steps|);
    }
  }

  // A copy in use was the stored application at some earlier desk.
  lemma {:induction false} CopyWasStored(desks: seq<Desk>, steps: seq<Step>, j: nat, copy: App) returns (i: nat)
    requires IsRun(desks, steps) && WellKept(desks[0]) && desks[0].copies == {} && j < |desks| &&
      copy in desks[j].copies
    ensures i < j && steps[i] == Load(copy.id) && copy.id in desks[i].apps && desks[i].apps[copy.id] == copy
  {
    assert j > 0;
    if copy in desks[j - 1].copies {
      i := CopyWasStored(desks, steps, j - 1, copy);
    } else {
      i := j - 1;
      WellKeptRun(desks, steps, i);
      assert Next(desks[i], desks[j], steps[i]);
    }
  }

  // ---- counting them ----

  ghost function AttemptsCalled(calls: seq<Call>, id: string): seq<nat> {
    if calls == [] then []
    else
      var last := calls[|calls| - 1];
      var before := AttemptsCalled(calls[..|calls| - 1], id);
      if last.app == id then before + [last.attempt] else before
  }

  ghost function UpTo(n: nat): set<nat> {
    if n == 0 then {} else UpTo(n - 1) + {n}
  }

  lemma {:induction false} UpToSize(n: nat)
    ensures |UpTo(n)| == n && forall k: nat :: k in UpTo(n) <==> 1 <= k <= n
  {
    if n > 0 {
      UpToSize(n - 1);
    }
  }

  ghost function ElementsOf(s: seq<nat>): set<nat> {
    set k | k in s
  }

  lemma {:induction false} CalledAttempts(apps: map<string, App>, calls: seq<Call>, id: string)
    requires CallsCovered(apps, calls) && id in apps
    ensures |AttemptsCalled(calls, id)| == |ElementsOf(AttemptsCalled(calls, id))|
    ensures forall k :: k in AttemptsCalled(calls, id) ==> 1 <= k <= apps[id].attempts && Call(id, k) in calls
  {
    if calls != [] {
      var init := calls[..|calls| - 1];
      var last := calls[|calls| - 1];
      CalledAttempts(apps, init, id);
      var before := AttemptsCalled(init, id);
      forall k | k in before ensures Call(id, k) in calls && (k != last.attempt || last.app != id) {
        assert Call(id, k) in init;
        var i :| 0 <= i < |init| && init[i] == Call(id, k);
        assert calls[i] != calls[|calls| - 1];
      }
      var all := AttemptsCalled(calls, id);
      if last.app == id {
        assert last.attempt !in before;
        assert ElementsOf(all) == ElementsOf(before) + {last.attempt};
      }
      forall k | k in AttemptsCalled(calls, id) ensures Call(id, k) in calls {
        if k in before {
          assert Call(id, k) in init;
        }
      }
    }
  }

  lemma CallsWithinAttempts(apps: map<string, App>, calls: seq<Call>, id: string)
    requires CallsCovered(apps, calls) && id in apps
    ensures |AttemptsCalled(calls, id)| <= apps[id].attempts
  {
    CalledAttempts(apps, calls, id);
    UpToSize(apps[id].attempts);
    SubsetSize(ElementsOf(AttemptsCalled(calls, id)), UpTo(apps[id].attempts));
  }

  // In such runs the platform calls of an application never outnumber its stored
  // attempts. The same holds of the browser calls.
  lemma AtMostOneCallPerAttempt(desks: seq<Desk>, steps: seq<Step>, i: nat, id: string)
    requires IsRun(desks, steps) && WellKept(desks[0]) && Covered(desks[0]) && i <= |steps| && id in desks[i].apps
    requires NothingOutrun(desks, steps, i)
    ensures |AttemptsCalled(desks[i].calls, id)| <= desks[i].apps[id].attempts
    ensures |AttemptsCalled(desks[i].browserCalls, id)| <= desks[i].apps[id].attempts
  {
    CoveredRun(desks, steps, i);
    CallsWithinAttempts(desks[i].apps, desks[i].calls, id);
    CallsWithinAttempts(desks[i].apps, desks[i].browserCalls, id);
  }

  // ---- building runs ----

  // Two runs, the second from where the first ends.
  lemma RunsJoin(desks: seq<Desk>, steps: seq<Step>, more: seq<Desk>, further: seq<Step>)
    requires IsRun(desks, steps) && IsRun(more, further) && desks[|steps|] == more[0]
    ensures IsRun(desks + more[1..], steps + further)
    ensures (desks + more[1..])[|steps| + |further|] == more[|further|]
  {
    hide Next;
    var ds, ss := desks + more[1..], steps + further;
    forall i | 0 <= i < |ss| ensures Next(ds[i], ds[i + 1], ss[i]) {
      if i >= |steps| {
        assert ds[i] == more[i - |steps|] && ds[i + 1] == more[i - |steps| + 1] && ss[i] == further[i - |steps|];
      }
    }
  }

  lemma RunOfOne(d: Desk, d': Desk, s: Step)
    requires Next(d, d', s)
    ensures IsRun([d, d'], [s])
  {
  }

  lemma RunOfTwo(d: Desk, d1: Desk, d2: Desk, s: Step, s1: Step)
    requires Next(d, d1, s) && Next(d1, d2, s1)
    ensures IsRun([d, d1, d2], [s, s1])
  {
  }

  // A window after the application's last one, with room for it.
  function FreshWindow(ledger: map<string, Reservation>, id: string): nat {
    if id in ledger then ledger[id].window + 1 else 0
  }

  function RoomFor(ledger: map<string, Reservation>, id: string): nat {
    Used(WithoutStale(ledger, id, FreshWindow(ledger, id)), FreshWindow(ledger, id)) + 1
  }

  lemma FreshReservation(ledger: map<string, Reservation>, id: string)
    ensures Held(AfterReserve(ledger, id, FreshWindow(ledger, id), RoomFor(ledger, id)), id)
  {
  }

  // From Ready, with nothing under way: reserve, store Submitting, call.
  lemma SubmitsFromReady(d: Desk, id: string) returns (desks: seq<Desk>, steps: seq<Step>)
    requires WellKept(d) && id in d.apps && d.apps[id].status == Ready && d.current.None?
    ensures IsRun(desks, steps) && desks[0] == d && |steps| == 3 && steps[2] == CallPlatform(id)
    ensures steps[0].Reserve? && steps[1].Store?
    ensures desks[3].apps[id := d.apps[id]] == d.apps && id in desks[3].apps && desks[3].copies == d.copies
    ensures desks[3].apps[id] == Moved(d.apps[id], Submitting, d.apps[id].updatedAt) && desks[3].current == Some(id)
    ensures desks[3].calls == d.calls + [Call(id, d.apps[id].attempts + 1)] && desks[3].browserCalls == d.browserCalls
    ensures forall i :: 0 <= i < 4 ==>
      id in desks[i].apps && (desks[i].apps[id].status == Ready || desks[i].apps[id].status == Submitting)
  {
    var window, room := FreshWindow(d.ledger, id), RoomFor(d.ledger, id);
    FreshReservation(d.ledger, id);
    var d1 := d.(ledger := AfterReserve(d.ledger, id, window, room));
    var a := Moved(d.apps[id], Submitting, d.apps[id].updatedAt);
    var d2 := Stored(d1, a);
    var d3 := d2.(calls := d2.calls + [Call(id, a.attempts)], called := true);
    assert Next(d, d1, Reserve(id, window, room));
    assert Next(d1, d2, Store(a));
    assert Next(d2, d3, CallPlatform(id));
    desks := [d, d1, d2, d3];
    steps := [Reserve(id, window, room), Store(a), CallPlatform(id)];
    assert d3.apps[id := d.apps[id]] == d.apps;
  }

  // ---- what an unsettled outcome waits for ----

  // The attempt's outcome is unknown or settled as failed, and no worker is in the
  // middle of it: the state a crash, an ambiguous result or reconciliation leaves.
  ghost predicate Parked(d: Desk, id: string) {
    id in d.apps && d.current != Some(id) &&
    (InFlight(d.apps[id].status) || d.apps[id].status == Submitted || d.apps[id].status == Failed)
  }

  predicate Calls(s: Step, id: string) {
    s == CallPlatform(id) || s == CallBrowser(id)
  }

  // Someone sends the application back after it failed.
  predicate SendsFailedBack(s: Step, id: string) {
    s.Revise? && s.copy.id == id && s.copy.status == Failed
  }

  lemma ParkedStep(d: Desk, d': Desk, s: Step, id: string)
    requires WellKept(d) && Next(d, d', s) && Parked(d, id)
    ensures !Calls(s, id)
    ensures Parked(d', id) || (SendsFailedBack(s, id) && id in d.apps && d.apps[id].status == Failed)
  {
    if s.Store? && s.app.id == id {
      assert StoreAllowed(d, d.apps[id], s.app);
    } else {
      hide StoreAllowed;
    }
  }

  // After a crash inside an attempt, or once its outcome is stored as ambiguous, no
  // further submission of the application is made until reconciliation has settled it
  // as failed and an operator has sent it back. No assumption is made on how old a copy
  // may be.
  lemma {:induction false} NoCallUntilReset(desks: seq<Desk>, steps: seq<Step>, i: nat, j: nat, id: string)
      returns (k: nat)
    requires IsRun(desks, steps) && WellKept(desks[0]) && i <= j < |steps|
    requires Parked(desks[i], id) && Calls(steps[j], id)
    ensures i <= k < j && SendsFailedBack(steps[k], id) && id in desks[k].apps && desks[k].apps[id].status == Failed
    decreases j - i
  {
    hide Next, WellKept, Parked;
    WellKeptRun(desks, steps, i);
    ParkedStep(desks[i], desks[i + 1], steps[i], id);
    if Parked(desks[i + 1], id) {
      k := NoCallUntilReset(desks, steps, i + 1, j, id);
    } else {
      k := i;
    }
  }

  // A crash anywhere inside an attempt leaves it parked.
  lemma CrashParks(d: Desk, d': Desk, id: string)
    requires WellKept(d) && Next(d, d', Forget) && id in d.apps && d.apps[id].status == Submitting
    ensures Parked(d', id)
  {
  }

  lemma DryRunStep(d: Desk, d': Desk, s: Step, id: string)
    requires WellKept(d) && Next(d, d', s) && id in d.apps && d.apps[id].status == DryRun
    ensures id in d'.apps && d'.apps[id].status == DryRun && !Calls(s, id)
  {
  }

  // A dry run is final, and nothing is called for it.
  lemma {:induction false} DryRunNeverCalls(desks: seq<Desk>, steps: seq<Step>, j: nat, id: string)
    requires IsRun(desks, steps) && WellKept(desks[0]) && j < |steps|
    requires id in desks[0].apps && desks[0].apps[id].status == DryRun
    ensures id in desks[j + 1].apps && desks[j + 1].apps[id].status == DryRun && !Calls(steps[j], id)
  {
    hide Next, WellKept;
    WellKeptRun(desks, steps, j);
    if j > 0 {
      DryRunNeverCalls(desks, steps, j - 1, id);
    }
    DryRunStep(desks[j], desks[j + 1], steps[j], id);
  }

  // A run from the desk that ends in a submission of the application, which nobody has
  // sent back as failed meanwhile.
  ghost predicate LeadsToCall(d: Desk, id: string, desks: seq<Desk>, steps: seq<Step>) {
    IsRun(desks, steps) && desks[0] == d && steps != [] && Calls(steps[|steps| - 1], id) &&
    forall k :: 0 <= k < |steps| ==> !SendsFailedBack(steps[k], id)
  }

  lemma LeadsOn(d: Desk, id: string, desks: seq<Desk>, steps: seq<Step>, more: seq<Desk>, further: seq<Step>)
    requires IsRun(desks, steps) && desks[0] == d && LeadsToCall(desks[|steps|], id, more, further)
    requires forall k :: 0 <= k < |steps| ==> !SendsFailedBack(steps[k], id)
    ensures LeadsToCall(d, id, desks + more[1..], steps + further)
  {
    RunsJoin(desks, steps, more, further);
  }

  lemma CallFromReady(d: Desk, id: string)
    requires WellKept(d) && id in d.apps && d.apps[id].status == Ready && d.current.None?
    ensures exists desks, steps :: LeadsToCall(d, id, desks, steps)
  {
    var desks, steps := SubmitsFromReady(d, id);
    assert LeadsToCall(d, id, desks, steps);
  }

  // One step on the way.
  lemma CallAfter(d: Desk, d': Desk, s: Step, id: string)
    requires Next(d, d', s) && !SendsFailedBack(s, id) && exists desks, steps :: LeadsToCall(d', id, desks, steps)
    ensures exists desks, steps :: LeadsToCall(d, id, desks, steps)
  {
    var desks, steps :| LeadsToCall(d', id, desks, steps);
    RunOfOne(d, d', s);
    LeadsOn(d, id, [d, d'], [s], desks, steps);
  }

  // What becomes of a loaded copy that is sent back or approved.
  function SentBack(a: App): App {
    if a.status == WaitingApproval then Moved(a, Ready, a.updatedAt + 1) else ResetApp(a, a.updatedAt + 1)
  }

  // Load and save: two steps, after which the application is ready.
  lemma SendsBack(d: Desk, id: string) returns (loaded: Desk, d': Desk)
    requires WellKept(d) && id in d.apps && d.apps[id].status in {WaitingValidation, WaitingApproval, Skipped, Failed}
    ensures Next(d, loaded, Load(id)) && Next(loaded, d', Revise(d.apps[id], SentBack(d.apps[id])))
    ensures loaded.apps == d.apps && WellKept(loaded) && WellKept(d')
    ensures d' == d.(apps := d.apps[id := SentBack(d.apps[id])], copies := d.copies + {d.apps[id]})
  {
    loaded := d.(copies := d.copies + {d.apps[id]});
    d' := loaded.(apps := d.apps[id := SentBack(d.apps[id])]);
    WellKeptStep(d, loaded, Load(id));
    WellKeptStep(loaded, d', Revise(d.apps[id], SentBack(d.apps[id])));
  }

  // Blocked, skipped and waiting applications are loaded and sent back.
  lemma CallFromWaiting(d: Desk, id: string)
    requires WellKept(d) && id in d.apps && d.apps[id].status in {WaitingValidation, WaitingApproval, Skipped}
    requires d.current.None?
    ensures exists desks, steps :: LeadsToCall(d, id, desks, steps)
  {
    hide Next, WellKept, LeadsToCall;
    var loaded, ready := SendsBack(d, id);
    CallFromReady(ready, id);
    CallAfter(loaded, ready, Revise(d.apps[id], SentBack(d.apps[id])), id);
    CallAfter(d, loaded, Load(id), id);
  }

  // The worker stores a prepared application, or one it sends back, as Ready.
  lemma CallAfterReadyStored(d: Desk, id: string)
    requires WellKept(d) && id in d.apps && d.apps[id].status in {New, Preparing, Submitting}
    requires d.apps[id].status == Submitting ==> d.current == Some(id)
    requires d.apps[id].status != Submitting ==> d.current.None?
    ensures exists desks, steps :: LeadsToCall(d, id, desks, steps)
  {
    var ready := Moved(d.apps[id], Ready, d.apps[id].updatedAt);
    assert Next(d, Stored(d, ready), Store(ready));
    WellKeptStep(d, Stored(d, ready), Store(ready));
    CallFromReady(Stored(d, ready), id);
    CallAfter(d, Stored(d, ready), Store(ready), id);
  }

  lemma CallWhenIdle(d: Desk, id: string)
    requires WellKept(d) && id in d.apps && !Parked(d, id) && d.apps[id].status != DryRun && d.current.None?
    ensures exists desks, steps :: LeadsToCall(d, id, desks, steps)
  {
    match d.apps[id].status
    case Ready => CallFromReady(d, id);
    case New => CallAfterReadyStored(d, id);
    case Preparing => CallAfterReadyStored(d, id);
    case _ => CallFromWaiting(d, id);
  }

  // Main result: from any desk, exactly when a submission of an application can follow
  // without its being sent back as failed: when the worker is still inside its attempt,
  // or its status is none of Submitting, PendingReconcile, Submitted, Failed and DryRun.
  lemma ResubmissionExactly(d: Desk, id: string)
    requires WellKept(d) && id in d.apps
    ensures (exists desks, steps :: LeadsToCall(d, id, desks, steps)) <==>
      !Parked(d, id) && d.apps[id].status != DryRun
  {
    if Parked(d, id) || d.apps[id].status == DryRun {
      forall desks, steps ensures !LeadsToCall(d, id, desks, steps) {
        if LeadsToCall(d, id, desks, steps) {
          if Parked(d, id) {
            var k := NoCallUntilReset(desks, steps, 0, |steps| - 1, id);
          } else {
            DryRunNeverCalls(desks, steps, |steps| - 1, id);
          }
        }
      }
    } else if d.current == Some(id) {
      CallAfterReadyStored(d, id);
    } else {
      var d1 := d.(current := None, lastError := None);
      assert Next(d, d1, Forget);
      WellKeptStep(d, d1, Forget);
      CallWhenIdle(d1, id);
      CallAfter(d, d1, Forget, id);
    }
  }

  // Nothing of the application is pending or settled as failed.
  ghost predicate Unsettled(d: Desk, id: string) {
    id in d.apps && d.apps[id].status != PendingReconcile && d.apps[id].status != Failed
  }

  lemma BrowserFails(d: Desk, id: string) returns (calling: Desk, waiting: Desk)
    requires WellKept(d) && d.current == Some(id) && d.lastError == Some(ConfirmationRequired) && !d.browsed
    ensures Unsettled(d, id) && Unsettled(calling, id)
    ensures waiting.current.None? && id in waiting.apps && waiting.apps[id].status == WaitingValidation
    ensures WellKept(waiting) && Next(d, calling, CallBrowser(id)) && Next(calling, waiting, Store(waiting.apps[id]))
  {
    var a := Moved(d.apps[id], WaitingValidation, d.apps[id].updatedAt);
    calling := d.(browserCalls := d.browserCalls + [Call(id, d.apps[id].attempts)], browsed := true);
    waiting := Stored(calling, a);
    WellKeptStep(d, calling, CallBrowser(id));
    WellKeptStep(calling, waiting, Store(a));
  }

  lemma BrowserFailsAndReturns(d: Desk, id: string) returns (desks: seq<Desk>, steps: seq<Step>)
    requires WellKept(d) && d.current == Some(id) && d.lastError == Some(ConfirmationRequired) && !d.browsed
    ensures IsRun(desks, steps) && desks[0] == d && |steps| == 4 && steps[0] == CallBrowser(id)
    ensures WellKept(desks[4]) && id in desks[4].apps && desks[4].apps[id].status == Ready && desks[4].current.None?
    ensures forall i :: 0 <= i < 5 ==> Unsettled(desks[i], id)
  {
    var calling, waiting := BrowserFails(d, id);
    var a := waiting.apps[id];
    var loaded, ready := SendsBack(waiting, id);
    hide Next, WellKept;
    desks := [d, calling, waiting, loaded, ready];
    steps := [CallBrowser(id), Store(a), Load(id), Revise(a, SentBack(a))];
    assert Unsettled(loaded, id) && Unsettled(ready, id);
  }

  // The limit of the guarantee. A failed browser submission is not treated as
  // ambiguous: the application is stored as waiting for validation, and once it has been
  // sent back the next submission follows although the browser's may have gone through.
  // No reconciliation happens on the way, and nothing is settled as failed.
  lemma BrowserFailureIsNotReconciled(d: Desk, id: string) returns (desks: seq<Desk>, steps: seq<Step>)
    requires WellKept(d) && d.current == Some(id) && d.lastError == Some(ConfirmationRequired) && !d.browsed
    ensures IsRun(desks, steps) && desks[0] == d && |steps| == 7
    ensures steps[0] == CallBrowser(id) && steps[6] == CallPlatform(id)
    ensures forall i :: 0 <= i < |desks| ==> Unsettled(desks[i], id)
  {
    hide Next, WellKept, Moved;
    var before, first := BrowserFailsAndReturns(d, id);
    var more, further := SubmitsFromReady(before[4], id);
    RunsJoin(before, first, more, further);
    desks := before + more[1..];
    steps := first + further;
    forall i | 0 <= i < |desks| ensures Unsettled(desks[i], id) {
      if i > 4 {
        assert desks[i] == more[i - 4];
      }
    }
  }

  // ---- a save computed from an old copy ----

  // The submissions of an application made in part of a run under an attempt above the
  // given one.
  ghost predicate CallsAbove(desks: seq<Desk>, steps: seq<Step>, i: nat, j: nat, copy: App)
    requires |desks| == |steps| + 1 && j <= |steps|
  {
    exists k :: i <= k < j && Calls(steps[k], copy.id) && copy.id in desks[k].apps &&
      desks[k].apps[copy.id].attempts > copy.attempts
  }

  lemma OutrunStep(d: Desk, d': Desk, s: Step, copy: App)
    requires Next(d, d', s)
    ensures NotOutrun(d', copy) <==>
      NotOutrun(d, copy) &&
      !(Calls(s, copy.id) && copy.id in d.apps && d.apps[copy.id].attempts > copy.attempts)
  {
    if s.CallPlatform? {
      assert d'.calls[|d.calls|] == Call(s.id, d.apps[s.id].attempts);
      assert d'.calls[..|d.calls|] == d.calls;
    } else if s.CallBrowser? {
      assert d'.browserCalls[|d.browserCalls|] == Call(s.id, d.apps[s.id].attempts);
      assert d'.browserCalls[..|d.browserCalls|] == d.browserCalls;
    }
  }

  lemma {:induction false} OutrunBetween(desks: seq<Desk>, steps: seq<Step>, i: nat, j: nat, copy: App)
    requires IsRun(desks, steps) && i <= j <= |steps| && NotOutrun(desks[i], copy)
    ensures NotOutrun(desks[j], copy) <==> !CallsAbove(desks, steps, i, j, copy)
  {
    hide Next, NotOutrun;
    if i < j {
      OutrunBetween(desks, steps, i, j - 1, copy);
      OutrunStep(desks[j - 1], desks[j], steps[j - 1], copy);
    }
  }

  // A copy read at desk i and saved at desk j, exactly: the save leaves all submissions
  // covered by stored attempts if and only if none was made in between under an attempt
  // the copy does not know.
  lemma SavedCopyExactly(desks: seq<Desk>, steps: seq<Step>, i: nat, j: nat)
    requires IsRun(desks, steps) && WellKept(desks[0]) && i < j < |steps|
    requires steps[i].Load? && steps[i].id in desks[i].apps && steps[j].Revise?
    requires steps[j].copy == desks[i].apps[steps[i].id]
    requires BothCovered(desks[i]) && BothCovered(desks[j])
    ensures BothCovered(desks[j + 1]) <==> !CallsAbove(desks, steps, i, j, steps[j].copy)
  {
    hide Next, NotOutrun, BothCovered;
    WellKeptRun(desks, steps, i);
    CurrentIsNotOutrun(desks[i], steps[j].copy);
    OutrunBetween(desks, steps, i, j, steps[j].copy);
    RevisionKeepsExactly(desks[j], desks[j + 1], steps[j].copy, steps[j].after);
  }

  lemma CountOneMore(calls: seq<Call>, call: Call)
    ensures AttemptsCalled(calls + [call], call.app) == AttemptsCalled(calls, call.app) + [call.attempt]
  {
    assert (calls + [call])[..|calls|] == calls;
  }

  // From Ready: one attempt that is called and fails.
  lemma FailingAttempt(d: Desk, id: string) returns (desks: seq<Desk>, steps: seq<Step>)
    requires WellKept(d) && id in d.apps && d.apps[id].status == Ready && d.current.None?
    ensures IsRun(desks, steps) && desks[0] == d && |steps| == 4
    ensures id in desks[4].apps && desks[4].apps[id].status == Failed && desks[4].current.None?
    ensures desks[4].apps[id].attempts == d.apps[id].attempts + 1 && desks[4].copies == d.copies
    ensures |AttemptsCalled(desks[4].calls, id)| == |AttemptsCalled(d.calls, id)| + 1
  {
    var called, first := SubmitsFromReady(d, id);
    var a := called[3].apps[id];
    var failed := Moved(a, Failed, a.updatedAt);
    var end := Stored(called[3], failed);
    assert Next(called[3], end, Store(failed));
    RunOfOne(called[3], end, Store(failed));
    RunsJoin(called, first, [called[3], end], [Store(failed)]);
    CountOneMore(d.calls, Call(id, a.attempts));
    desks := called + [called[3], end][1..];
    steps := first + [Store(failed)];
  }

  // A failed attempt, sent back.
  lemma FailsAndReturns(d: Desk, id: string) returns (desks: seq<Desk>, steps: seq<Step>, copy: App)
    requires WellKept(d) && id in d.apps && d.apps[id].status == Ready && d.current.None?
    ensures IsRun(desks, steps) && desks[0] == d && |steps| == 6
    ensures steps[4] == Load(id) && steps[5] == Revise(copy, SentBack(copy))
    ensures copy.id == id && copy.status == Failed && copy.attempts == d.apps[id].attempts + 1
    ensures WellKept(desks[6]) && id in desks[6].apps && desks[6].apps[id] == SentBack(copy)
    ensures desks[6].current.None? && copy in desks[6].copies
    ensures |AttemptsCalled(desks[6].calls, id)| == |AttemptsCalled(d.calls, id)| + 1
  {
    var once, first := FailingAttempt(d, id);
    WellKeptRun(once, first, 4);
    copy := once[4].apps[id];
    var loaded, ready := SendsBack(once[4], id);
    hide Next, WellKept;
    RunOfTwo(once[4], loaded, ready, Load(id), Revise(copy, SentBack(copy)));
    desks := once + [once[4], loaded, ready][1..];
    steps := first + [Load(id), Revise(copy, SentBack(copy))];
    RunsJoin(once, first, [once[4], loaded, ready], [Load(id), Revise(copy, SentBack(copy))]);
  }

  // A second attempt fails, and the copy of the first is saved once more.
  lemma FailsAndForgets(d: Desk, id: string, copy: App) returns (desks: seq<Desk>, steps: seq<Step>)
    requires WellKept(d) && id in d.apps && d.apps[id].status == Ready && d.current.None?
    requires copy in d.copies && copy.id == id && copy.status == Failed
    ensures IsRun(desks, steps) && desks[0] == d && |steps| == 5 && steps[4] == Revise(copy, SentBack(copy))
    ensures id in desks[5].apps && desks[5].apps[id].attempts == copy.attempts
    ensures |AttemptsCalled(desks[5].calls, id)| == |AttemptsCalled(d.calls, id)| + 1
  {
    var again, second := FailingAttempt(d, id);
    WellKeptRun(again, second, 4);
    var end := SavedAgain(again[4], copy);
    hide Next, WellKept;
    RunOfOne(again[4], end, Revise(copy, SentBack(copy)));
    desks := again + [again[4], end][1..];
    steps := second + [Revise(copy, SentBack(copy))];
    RunsJoin(again, second, [again[4], end], [Revise(copy, SentBack(copy))]);
  }

  lemma SavedAgain(d: Desk, copy: App) returns (d': Desk)
    requires WellKept(d) && copy in d.copies && copy.id in d.apps && copy.status == Failed
    requires d.apps[copy.id].status == Failed
    ensures Next(d, d', Revise(copy, SentBack(copy)))
    ensures d' == d.(apps := d.apps[copy.id := SentBack(copy)])
  {
    d' := d.(apps := d.apps[copy.id := SentBack(copy)]);
  }

  // Saves compare the stored status only. Here a copy is read after a first failed
  // attempt and saved again after the second: the comparison passes, the attempt count
  // goes backwards, and the platform has received more submissions than the record
  // admits. The run starts at any desk with the application ready and as many attempts
  // as calls, a new one with neither, say.
  lemma StaleResetForgetsAnAttempt(d: Desk, id: string) returns (desks: seq<Desk>, steps: seq<Step>)
    requires WellKept(d) && id in d.apps && d.apps[id].status == Ready && d.current.None?
    requires |AttemptsCalled(d.calls, id)| == d.apps[id].attempts
    ensures IsRun(desks, steps) && desks[0] == d && |steps| == 11
    ensures steps[4] == Load(id) && steps[5].Revise? && steps[10] == steps[5]
    ensures id in desks[11].apps && |AttemptsCalled(desks[11].calls, id)| > desks[11].apps[id].attempts
  {
    hide Next, WellKept;
    var once, first, copy := FailsAndReturns(d, id);
    var twice, second := FailsAndForgets(once[6], id, copy);
    RunsJoin(once, first, twice, second);
    desks := once + twice[1..];
    steps := first + second;
  }
}
