// The temporary-resume saga as a step system over what is durable: the remote
// account, the stored records and the stored proposals. Every external effect of
// worker/application_tailoring.go is one step, so a crash between two effects is
// simply a run that goes on from any of its states with everything volatile lost. The
// writer's comparison of current fields with the proposal is one step, and each field it
// then writes another: third parties may edit the account between them.
module TailoringRuns {
  import opened Wrappers
  import opened JsonPointer
  import opened JsonTree
  import opened Leaves
  import opened ProfileState
  import opened RetrySafety
  import opened Remote
  import opened Tailoring

  // The last observation a worker holds in memory.
  datatype Reading = Reading(paths: seq<string>, state: Json)

  // What the writer has compared with the proposal it is executing.
  datatype Comparison = Comparison(proposalId: string, seen: Json)

  datatype World = World(
    remote: Json,
    records: map<string, Record>,
    proposals: map<string, Proposal>,
    active: Option<string>,
    reading: Option<Reading>,
    compared: Option<Comparison>)

  datatype Step =
    | Read(paths: seq<string>)
    | Create(record: Record)
    | Propose(proposal: Proposal)
    | Save(record: Record)
    | Compare(proposalId: string)
    | Write(proposalId: string, change: Change)
    | ThirdPartyEdit
    | Crash

  // The proposal was planned from one tree towards another.
  ghost predicate PlanOf(p: Proposal, planned: Json, desired: Json) {
    p.desired == desired && p.observedDigest == Digest(planned) && FromPlan(p, planned)
  }

  // What every stored proposal satisfies: it is valid and records its own plan.
  ghost predicate ValidStored(p: Proposal) {
    p.Valid() && p.manifest.state == p.desired && FromPlan(p, p.observedDigest.of)
  }

  ghost predicate Saw(w: World, r: Record, state: Json) {
    w.reading == Some(Reading(r.allowedPaths, state))
  }

  ghost predicate RestorePlan(p: Proposal, r: Record) {
    PlanOf(p, r.tailored, r.baseline) || PlanOf(p, r.baseline, r.baseline)
  }

  // The saves the saga makes: one transition at a time, each on the evidence it needs.
  ghost predicate SaveAllowed(w: World, before: Record, after: Record) {
    SameInputs(before, after) && after.revision == before.revision + 1 && ValidRecord(after) &&
    match after.status
    case Planned => false
    case Applying =>
      before.status == Status.Planned && after.restoreProposalId == before.restoreProposalId &&
      after.applyProposalId in w.proposals &&
        PlanOf(w.proposals[after.applyProposalId], before.baseline, before.tailored)
    case Applied =>
      before.status == Applying && SameProposals(before, after) && Saw(w, before, before.tailored)
    case Submitting =>
      before.status == Applied && SameProposals(before, after) && Saw(w, before, before.tailored)
    case Restoring =>
      (before.status == Applied || before.status == Submitting) && after.applyProposalId == before.applyProposalId &&
      after.restoreProposalId in w.proposals && RestorePlan(w.proposals[after.restoreProposalId], before) &&
      Saw(w, before, w.proposals[after.restoreProposalId].observedDigest.of)
    case Restored =>
      before.status == Restoring && SameProposals(before, after) && Saw(w, before, before.baseline)
    case RecoveryRequired =>
      before.status != Restored && SameProposals(before, after)
  }

  ghost predicate SameProposals(before: Record, after: Record) {
    after.applyProposalId == before.applyProposalId && after.restoreProposalId == before.restoreProposalId
  }

  // The stored record entitles its worker to write under this proposal.
  predicate Entitles(r: Record, proposalId: string) {
    (r.status == Applying && r.applyProposalId == proposalId) ||
    (r.status == Restoring && r.restoreProposalId == proposalId)
  }

  // A field is written on the strength of the last comparison, which found no conflict.
  // Whether the account still is as compared is not asked again.
  ghost predicate WriteAllowed(w: World, proposalId: string, change: Change, remote': Json) {
    w.active.Some? && w.active.value in w.records && Entitles(w.records[w.active.value], proposalId) &&
    proposalId in w.proposals && change in w.proposals[proposalId].changes &&
    w.compared.Some? && w.compared.value.proposalId == proposalId &&
    Remaining(w.proposals[proposalId], w.compared.value.seen).Some? &&
    Segments(change.path).Some? &&
    Written(w.remote, remote', Segments(change.path).value, AfterAt(w.proposals[proposalId].desired, change.path))
  }

  // The writer's comparing read.
  ghost function Compared(w: World, proposalId: string): World
    requires proposalId in w.proposals
  {
    var paths := DeclaredPaths(w.proposals[proposalId].desired);
    var seen := Snapshot(w.remote, paths);
    w.(reading := Some(Reading(paths, seen)), compared := Some(Comparison(proposalId, seen)))
  }

  ghost predicate Next(w: World, w': World, s: Step) {
    match s
    case Read(paths) =>
      w' == w.(reading := Some(Reading(paths, Snapshot(w.remote, paths))))
    case Create(r) =>
      r.id !in w.records && w.active.None? && ValidRecord(r) && r.status == Status.Planned && r.revision == 1 &&
      Saw(w, r, r.baseline) && w' == w.(records := w.records[r.id := r], active := Some(r.id))
    case Propose(p) =>
      p.id !in w.proposals && ValidStored(p) && w' == w.(proposals := w.proposals[p.id := p])
    case Save(r) =>
      r.id in w.records && SaveAllowed(w, w.records[r.id], r) &&
      w' == w.(records := w.records[r.id := r], active := if r.status == Restored then None else Some(r.id))
    case Compare(proposalId) =>
      proposalId in w.proposals && w' == Compared(w, proposalId)
    case Write(proposalId, change) =>
      WriteAllowed(w, proposalId, change, w'.remote) && w' == w.(remote := w'.remote, reading := None)
    case ThirdPartyEdit =>
      w' == w.(remote := w'.remote)
    case Crash =>
      w' == w.(reading := None, compared := None)
  }

  ghost predicate IsRun(worlds: seq<World>, steps: seq<Step>) {
    |worlds| == |steps| + 1 && forall i :: 0 <= i < |steps| ==> Next(worlds[i], worlds[i + 1], steps[i])
  }

  lemma RunExtends(worlds: seq<World>, steps: seq<Step>, next: World, step: Step)
    requires IsRun(worlds, steps) && Next(worlds[|worlds| - 1], next, step)
    ensures IsRun(worlds + [next], steps + [step])
  {
    hide Next;
    var ws, ss := worlds + [next], steps + [step];
    forall i | 0 <= i < |ss| ensures Next(ws[i], ws[i + 1], ss[i]) {
      if i < |steps| {
        assert ws[i] == worlds[i] && ws[i + 1] == worlds[i + 1] && ss[i] == steps[i];
      }
    }
  }

  // A crash after any effect cuts a run, and whatever a restarted process does
  // from the durable part of that state continues it: the result is again a run.
  lemma CrashAndRetry(worlds: seq<World>, steps: seq<Step>, i: nat, worlds2: seq<World>, steps2: seq<Step>)
    requires IsRun(worlds, steps) && i < |worlds|
    requires IsRun(worlds2, steps2) && worlds2[0] == worlds[i].(reading := None, compared := None)
    ensures IsRun(worlds[..i + 1] + worlds2, steps[..i] + [Crash] + steps2)
  {
    var ws := worlds[..i + 1] + worlds2;
    var ss := steps[..i] + [Crash] + steps2;
    forall k | 0 <= k < |ss| ensures Next(ws[k], ws[k + 1], ss[k]) {
      if k < i {
        assert ws[k] == worlds[k] && ws[k + 1] == worlds[k + 1] && ss[k] == steps[k];
      } else if k == i {
        assert ws[k] == worlds[i] && ws[k + 1] == worlds2[0];
      } else {
        assert ws[k] == worlds2[k - i - 1] && ws[k + 1] == worlds2[k - i] && ss[k] == steps2[k - i - 1];
      }
    }
  }

  // ---- what every run keeps, third-party edits or not ----

  ghost predicate ValidPlans(proposals: map<string, Proposal>, r: Record) {
    (r.applyProposalId != "" ==>
      r.applyProposalId in proposals && PlanOf(proposals[r.applyProposalId], r.baseline, r.tailored)) &&
    (r.restoreProposalId != "" ==>
      r.restoreProposalId in proposals && RestorePlan(proposals[r.restoreProposalId], r))
  }

  ghost predicate SoundRecord(proposals: map<string, Proposal>, r: Record) {
    ValidRecord(r) && ValidPlans(proposals, r)
  }

  ghost predicate SoundProposals(proposals: map<string, Proposal>) {
    forall id :: id in proposals ==> proposals[id].id == id && ValidStored(proposals[id])
  }

  ghost predicate SoundRecords(proposals: map<string, Proposal>, records: map<string, Record>) {
    forall id :: id in records ==> records[id].id == id && SoundRecord(proposals, records[id])
  }

  // The profile lock: the one record that is not restored.
  ghost predicate OneActive(w: World) {
    (forall id :: id in w.records ==> (w.records[id].status != Restored <==> w.active == Some(id))) &&
    (w.active.Some? ==> w.active.value in w.records)
  }

  ghost predicate Sound(w: World) {
    SoundProposals(w.proposals) && SoundRecords(w.proposals, w.records) && OneActive(w)
  }

  lemma RecordsPersist(proposals: map<string, Proposal>, records: map<string, Record>, p: Proposal)
    requires SoundRecords(proposals, records) && p.id !in proposals
    ensures SoundRecords(proposals[p.id := p], records)
  {
    hide ValidRecord, RestorePlan, PlanOf;
    forall id | id in records ensures SoundRecord(proposals[p.id := p], records[id]) {
      assert SoundRecord(proposals, records[id]);
    }
  }

  lemma RecordsUpdated(proposals: map<string, Proposal>, records: map<string, Record>, r: Record)
    requires SoundRecords(proposals, records) && SoundRecord(proposals, r)
    ensures SoundRecords(proposals, records[r.id := r])
  {
    hide SoundRecord;
    assert SoundRecord(proposals, r) && r.id == r.id;
  }

  lemma SavedRecordIsSound(w: World, before: Record, after: Record)
    requires SoundRecord(w.proposals, before) && SaveAllowed(w, before, after)
    ensures SoundRecord(w.proposals, after)
  {
  }

  // Saves start from a record that is not restored, and never leave recovery.
  lemma SaveSource(w: World, before: Record, after: Record)
    requires SaveAllowed(w, before, after)
    ensures SameInputs(before, after) && before.status != Restored
    ensures before.status == RecoveryRequired ==> after.status == RecoveryRequired
  {
  }

  lemma OneActiveSave(w: World, w': World, r: Record)
    requires OneActive(w) && r.id in w.records && w.records[r.id].status != Restored
    requires w'.records == w.records[r.id := r]
    requires w'.active == if r.status == Restored then None else Some(r.id)
    ensures OneActive(w') && w.active == Some(r.id)
  {
  }

  lemma SoundSave(w: World, w': World, r: Record)
    requires Sound(w) && Next(w, w', Save(r))
    ensures Sound(w')
  {
    var before := w.records[r.id];
    SaveSource(w, before, r);
    assert SoundRecord(w.proposals, before);
    SavedRecordIsSound(w, before, r);
    OneActiveSave(w, w', r);
    RecordsUpdated(w.proposals, w.records, r);
  }

  lemma SoundCreate(w: World, w': World, r: Record)
    requires Sound(w) && Next(w, w', Create(r))
    ensures Sound(w')
  {
    NewRecordIsSound(w.proposals, r);
    RecordsUpdated(w.proposals, w.records, r);
    OneActiveCreate(w, w', r);
  }

  lemma NewRecordIsSound(proposals: map<string, Proposal>, r: Record)
    requires ValidRecord(r) && r.status == Status.Planned
    ensures SoundRecord(proposals, r)
  {
  }

  lemma OneActiveCreate(w: World, w': World, r: Record)
    requires OneActive(w) && r.id !in w.records && w.active.None? && r.status != Restored
    requires w'.records == w.records[r.id := r] && w'.active == Some(r.id)
    ensures OneActive(w')
  {
  }

  lemma SoundPropose(w: World, w': World, p: Proposal)
    requires Sound(w) && Next(w, w', Propose(p))
    ensures Sound(w')
  {
    RecordsPersist(w.proposals, w.records, p);
  }

  lemma SoundStep(w: World, w': World, s: Step)
    requires Sound(w) && Next(w, w', s)
    ensures Sound(w')
  {
    match s
    case Create(r) => SoundCreate(w, w', r);
    case Save(r) => SoundSave(w, w', r);
    case Propose(p) => SoundPropose(w, w', p);
    case _ =>
  }

  lemma {:induction false} SoundRun(worlds: seq<World>, steps: seq<Step>, i: nat)
    requires IsRun(worlds, steps) && Sound(worlds[0]) && i < |worlds|
    ensures Sound(worlds[i])
  {
    if i > 0 {
      SoundRun(worlds, steps, i - 1);
      SoundStep(worlds[i - 1], worlds[i], steps[i - 1]);
    }
  }

  // ---- what a write does to the account ----

  ghost predicate BaselineOrTailored(r: Record, remote: Json, path: string) {
    Matches(PointerValue(remote, path), AfterAt(r.baseline, path)) ||
    Matches(PointerValue(remote, path), AfterAt(r.tailored, path))
  }

  // An allowed path takes its baseline or its tailored value, and no other allowed path
  // changes.
  ghost predicate WritesOwnValue(r: Record, before: Json, after: Json, path: string) {
    path in r.allowedPaths && BaselineOrTailored(r, after, path) &&
    forall other :: other in r.allowedPaths && other != path ==>
      PointerValue(after, other) == PointerValue(before, other)
  }

  lemma PlannedPath(p: Proposal, planned: Json, change: Change)
    requires FromPlan(p, planned) && change in p.changes
    ensures change.path in DeclaredPaths(p.desired)
  {
    DiffIsPointwise(planned, p.desired);
    ByPathMembers(planned, p.desired, DeclaredPaths(p.desired), change);
  }

  // The proposal an entitled record writes under was planned from one of the
  // record's snapshots towards one of them.
  lemma EntitledPlan(w: World, r: Record, proposalId: string)
    requires SoundRecord(w.proposals, r) && Entitles(r, proposalId)
    ensures proposalId in w.proposals
    ensures PlanOf(w.proposals[proposalId], r.baseline, r.tailored) || RestorePlan(w.proposals[proposalId], r)
    ensures w.proposals[proposalId].desired == r.baseline || w.proposals[proposalId].desired == r.tailored
    ensures DeclaredPaths(w.proposals[proposalId].desired) == r.allowedPaths
  {
  }

  lemma WriteEffect(w: World, w': World, s: Step)
    requires Sound(w) && Next(w, w', s) && s.Write?
    ensures w.active.Some? && w.active.value in w.records
    ensures Entitles(w.records[w.active.value], s.proposalId)
    ensures WritesOwnValue(w.records[w.active.value], w.remote, w'.remote, s.change.path)
  {
    var r := w.records[w.active.value];
    assert SoundRecord(w.proposals, r);
    EntitledPlan(w, r, s.proposalId);
    EffectUnderPlan(r, w.proposals[s.proposalId], s.change, w.remote, w'.remote);
  }

  lemma EffectUnderPlan(r: Record, p: Proposal, change: Change, before: Json, after: Json)
    requires PlanOf(p, r.baseline, r.tailored) || RestorePlan(p, r)
    requires DeclaredPaths(p.desired) == r.allowedPaths && change in p.changes && Segments(change.path).Some?
    requires Written(before, after, Segments(change.path).value, AfterAt(p.desired, change.path))
    ensures WritesOwnValue(r, before, after, change.path)
  {
    PlannedPath(p, p.observedDigest.of, change);
    WriteStep(before, after, p.desired, change.path, change.path);
    forall other | other in r.allowedPaths && other != change.path
      ensures PointerValue(after, other) == PointerValue(before, other)
    {
      WriteStep(before, after, p.desired, change.path, other);
    }
  }

  // ---- overwriting a third party ----

  // The account holds, at this path, neither what the proposal was planned from nor what
  // it wants there.
  ghost predicate Foreign(p: Proposal, remote: Json, path: string) {
    !BeforeOrDesired(p.observedDigest.of, p.desired, remote, path)
  }

  // The value at the path is another after the step, or the worker wrote it.
  ghost predicate Touches(w: World, w': World, s: Step, path: string) {
    (s.Write? && s.change.path == path) ||
    (s.ThirdPartyEdit? && PointerValue(w'.remote, path) != PointerValue(w.remote, path))
  }

  // Between two points of a run a third party put a foreign value there, which nobody
  // has touched since.
  ghost predicate SlippedIn(worlds: seq<World>, steps: seq<Step>, k: nat, i: nat, p: Proposal, path: string)
    requires |worlds| == |steps| + 1 && i <= |steps|
  {
    exists j :: k < j < i && steps[j].ThirdPartyEdit? && Foreign(p, worlds[j + 1].remote, path) &&
      forall m :: j < m < i ==> !Touches(worlds[m], worlds[m + 1], steps[m], path)
  }

  // The writer is executing this proposal and has compared it.
  ghost predicate Executing(w: World, p: Proposal, seen: Json) {
    p.id in w.proposals && w.proposals[p.id] == p && w.compared == Some(Comparison(p.id, seen))
  }

  // A run in which the writer is not interrupted by another comparison or a crash.
  ghost predicate Uninterrupted(steps: seq<Step>, k: nat, i: nat)
    requires i <= |steps|
  {
    forall j :: k < j < i ==> !steps[j].Compare? && !steps[j].Crash?
  }

  lemma ExecutionGoesOn(w: World, w': World, s: Step, p: Proposal, seen: Json, path: string)
    requires Sound(w) && Next(w, w', s) && Executing(w, p, seen) && !s.Compare? && !s.Crash?
    requires path in DeclaredPaths(p.desired)
    ensures Executing(w', p, seen)
    ensures !Touches(w, w', s, path) ==> PointerValue(w'.remote, path) == PointerValue(w.remote, path)
    ensures s.Write? && s.change.path == path ==> !Foreign(p, w'.remote, path)
  {
    if s.Write? {
      assert ValidStored(p);
      PlannedPath(p, p.observedDigest.of, s.change);
      WriteStep(w.remote, w'.remote, p.desired, s.change.path, path);
    }
  }

  lemma {:induction false} StillExecuting(worlds: seq<World>, steps: seq<Step>, k: nat, n: nat, p: Proposal,
      seen: Json, path: string)
    requires IsRun(worlds, steps) && Sound(worlds[0]) && k < n <= |steps| && Uninterrupted(steps, k, n)
    requires Executing(worlds[k + 1], p, seen) && path in DeclaredPaths(p.desired)
    ensures Executing(worlds[n], p, seen)
  {
    hide Next, Sound, Executing, Touches, Foreign;
    if n > k + 1 {
      StillExecuting(worlds, steps, k, n - 1, p, seen, path);
      SoundRun(worlds, steps, n - 1);
      ExecutionGoesOn(worlds[n - 1], worlds[n], steps[n - 1], p, seen, path);
    }
  }

  // What the comparison saw is what the account held, and none of it was foreign.
  lemma ComparedIsNotForeign(p: Proposal, remote: Json, path: string)
    requires ValidStored(p) && path in DeclaredPaths(p.desired)
    requires Remaining(p, Snapshot(remote, DeclaredPaths(p.desired))).Some?
    ensures !Foreign(p, remote, path)
  {
    var paths := DeclaredPaths(p.desired);
    RetryAfterPartialApply(p, p.observedDigest.of, Snapshot(remote, paths));
    DeclaredPathsSeparate(p.desired);
    var i :| 0 <= i < |paths| && paths[i] == path;
    SnapshotShows(remote, paths, i);
  }

  lemma {:induction false} ForeignSlippedIn(worlds: seq<World>, steps: seq<Step>, k: nat, n: nat, p: Proposal,
      seen: Json, path: string)
    requires IsRun(worlds, steps) && Sound(worlds[0]) && k < n <= |steps| && Uninterrupted(steps, k, n)
    requires Executing(worlds[k + 1], p, seen) && path in DeclaredPaths(p.desired)
    requires !Foreign(p, worlds[k + 1].remote, path)
    ensures Foreign(p, worlds[n].remote, path) <==> SlippedIn(worlds, steps, k, n, p, path)
  {
    hide Next, Sound, Executing, Touches;
    if n > k + 1 {
      var m := n - 1;
      ForeignSlippedIn(worlds, steps, k, m, p, seen, path);
      StillExecuting(worlds, steps, k, m, p, seen, path);
      SoundRun(worlds, steps, m);
      ExecutionGoesOn(worlds[m], worlds[n], steps[m], p, seen, path);
      SlippedInStep(worlds, steps, k, n, p, path);
      OnlyEditsTouch(worlds[m], worlds[n], steps[m], path);
    }
  }

  lemma OnlyEditsTouch(w: World, w': World, s: Step, path: string)
    ensures Touches(w, w', s, path) ==> s.ThirdPartyEdit? || (s.Write? && s.change.path == path)
  {
  }

  lemma SlippedInStep(worlds: seq<World>, steps: seq<Step>, k: nat, n: nat, p: Proposal, path: string)
    requires |worlds| == |steps| + 1 && k + 1 < n <= |steps|
    ensures SlippedIn(worlds, steps, k, n, p, path) <==>
      (steps[n - 1].ThirdPartyEdit? && Foreign(p, worlds[n].remote, path)) ||
      (SlippedIn(worlds, steps, k, n - 1, p, path) && !Touches(worlds[n - 1], worlds[n], steps[n - 1], path))
  {
  }

  // Comparisons come from Compare alone.
  lemma ComparisonStep(w: World, w': World, s: Step)
    requires Next(w, w', s) && w'.compared.Some?
    ensures s.Compare? ==>
      s.proposalId in w.proposals && w' == Compared(w, s.proposalId) && w'.compared.value.proposalId == s.proposalId
    ensures !s.Compare? ==> !s.Crash? && w.compared == w'.compared
  {
  }

  // The comparison a write rests on.
  lemma {:induction false} LastComparison(worlds: seq<World>, steps: seq<Step>, i: nat) returns (k: nat)
    requires IsRun(worlds, steps) && worlds[0].compared.None? && i < |worlds| && worlds[i].compared.Some?
    ensures k < i && Uninterrupted(steps, k, i) && steps[k] == Compare(worlds[i].compared.value.proposalId)
    ensures steps[k].proposalId in worlds[k].proposals && worlds[k + 1] == Compared(worlds[k], steps[k].proposalId)
    ensures worlds[k + 1].compared == worlds[i].compared
  {
    hide Next, Compared;
    ComparisonStep(worlds[i - 1], worlds[i], steps[i - 1]);
    if steps[i - 1].Compare? {
      k := i - 1;
    } else {
      k := LastComparison(worlds, steps, i - 1);
    }
  }

  // Main result: over every run, whatever third parties edit in between, a write happens
  // only while the stored record is Applying or Restoring with exactly that proposal,
  // sets one allowed path to its baseline or tailored value, and rests on a comparison
  // the writer made before; what it overwrites is a foreign value exactly when a third
  // party has put one there since that comparison, and the record's own value otherwise.
  lemma ClobberingExactly(worlds: seq<World>, steps: seq<Step>, i: nat) returns (k: nat)
    requires IsRun(worlds, steps) && Sound(worlds[0]) && worlds[0].compared.None?
    requires i < |steps| && steps[i].Write?
    ensures worlds[i].active.Some? && worlds[i].active.value in worlds[i].records
    ensures Entitles(worlds[i].records[worlds[i].active.value], steps[i].proposalId)
    ensures WritesOwnValue(worlds[i].records[worlds[i].active.value],
                           worlds[i].remote, worlds[i + 1].remote, steps[i].change.path)
    ensures k < i && steps[k] == Compare(steps[i].proposalId) && Uninterrupted(steps, k, i)
    ensures steps[i].proposalId in worlds[i].proposals
    ensures var p := worlds[i].proposals[steps[i].proposalId];
      Foreign(p, worlds[i].remote, steps[i].change.path) <==> SlippedIn(worlds, steps, k, i, p, steps[i].change.path)
    ensures !Foreign(worlds[i].proposals[steps[i].proposalId], worlds[i].remote, steps[i].change.path) ==>
      BaselineOrTailored(worlds[i].records[worlds[i].active.value], worlds[i].remote, steps[i].change.path)
  {
    SoundRun(worlds, steps, i);
    WriteEffect(worlds[i], worlds[i + 1], steps[i]);
    OwnValueOverwritten(worlds[i], steps[i].proposalId, steps[i].change.path);
    var id, change := steps[i].proposalId, steps[i].change;
    assert Next(worlds[i], worlds[i + 1], steps[i]);
    hide Next, Sound, Touches;
    k := LastComparison(worlds, steps, i);
    SoundRun(worlds, steps, k);
    var p := worlds[k].proposals[id];
    ProposalsOf(worlds[k], p, id);
    PlanStays(worlds, steps, k, i, id);
    PlannedPath(p, p.observedDigest.of, change);
    ComparedIsNotForeign(p, worlds[k].remote, change.path);
    ForeignSlippedIn(worlds, steps, k, i, p, worlds[k + 1].compared.value.seen, change.path);
  }

  lemma ProposalsOf(w: World, p: Proposal, id: string)
    requires Sound(w) && id in w.proposals && w.proposals[id] == p
    ensures p.id == id && ValidStored(p)
  {
  }

  lemma {:induction false} PlanStays(worlds: seq<World>, steps: seq<Step>, k: nat, i: nat, id: string)
    requires IsRun(worlds, steps) && k <= i < |worlds| && id in worlds[k].proposals
    ensures id in worlds[i].proposals && worlds[i].proposals[id] == worlds[k].proposals[id]
  {
    if k < i {
      PlanStays(worlds, steps, k, i - 1, id);
      assert Next(worlds[i - 1], worlds[i], steps[i - 1]);
    }
  }

  // A value that is not foreign is the record's own.
  lemma NotForeignIsOwn(r: Record, p: Proposal, remote: Json, path: string)
    requires PlanOf(p, r.baseline, r.tailored) || RestorePlan(p, r)
    requires path in DeclaredPaths(r.baseline) && path in DeclaredPaths(r.tailored) && !Foreign(p, remote, path)
    ensures BaselineOrTailored(r, remote, path)
  {
    var leaf := LeafOfPointer(r.baseline, path);
    var other := LeafOfPointer(r.tailored, path);
  }

  lemma OwnValueOverwritten(w: World, proposalId: string, path: string)
    requires Sound(w) && w.active.Some? && w.active.value in w.records
    requires Entitles(w.records[w.active.value], proposalId) && path in w.records[w.active.value].allowedPaths
    ensures proposalId in w.proposals
    ensures !Foreign(w.proposals[proposalId], w.remote, path) ==>
      BaselineOrTailored(w.records[w.active.value], w.remote, path)
  {
    var r := w.records[w.active.value];
    assert SoundRecord(w.proposals, r);
    EntitledPlan(w, r, proposalId);
    assert DeclaredPaths(r.baseline) == r.allowedPaths == DeclaredPaths(r.tailored);
    hide Foreign, BaselineOrTailored, PlanOf, RestorePlan, Entitles;
    if !Foreign(w.proposals[proposalId], w.remote, path) {
      NotForeignIsOwn(r, w.proposals[proposalId], w.remote, path);
    }
  }

  lemma FieldWritten(remote: Json, p: Proposal, change: Change) returns (after: Json)
    requires ValidStored(p) && change in p.changes
    ensures Segments(change.path).Some?
    ensures Written(remote, after, Segments(change.path).value, AfterAt(p.desired, change.path))
    ensures PointerValue(after, change.path) == PointerValue(p.desired, change.path)
  {
    PlannedPath(p, p.observedDigest.of, change);
    hide ValidStored;
    var leaf := LeafOfPointer(p.desired, change.path);
    var value := Lookup(p.desired, leaf).value;
    assert AfterAt(p.desired, change.path) == value;
    after := WriteAt(remote, leaf, value);
    LookupAfterWrite(remote, leaf, value);
    LookupPointer(after, leaf);
  }

  lemma ComparedMayWrite(w: World, p: Proposal, change: Change, edited: Json, after: Json)
    requires w.active.Some? && w.active.value in w.records && Entitles(w.records[w.active.value], p.id)
    requires p.id in w.proposals && w.proposals[p.id] == p && change in p.changes
    requires Remaining(p, Snapshot(w.remote, DeclaredPaths(p.desired))).Some?
    requires Segments(change.path).Some?
    requires Written(edited, after, Segments(change.path).value, AfterAt(p.desired, change.path))
    ensures var changed := Compared(w, p.id).(remote := edited);
      Next(changed, changed.(remote := after, reading := None), Write(p.id, change))
  {
    hide Entitles, Remaining, Segments, Written, AfterAt, Snapshot;
  }

  lemma ComparedAndEdited(w: World, id: string, edited: Json)
    requires id in w.proposals
    ensures Next(w, Compared(w, id), Compare(id))
    ensures Next(Compared(w, id), Compared(w, id).(remote := edited), ThirdPartyEdit)
  {
  }

  lemma RunOfThree(w: World, w1: World, w2: World, w3: World, s: Step, s1: Step, s2: Step)
    requires Next(w, w1, s) && Next(w1, w2, s1) && Next(w2, w3, s2)
    ensures IsRun([w, w1, w2, w3], [s, s1, s2])
  {
    hide Next;
  }

  // Whatever a third party puts there between comparison and write is overwritten: from
  // any world in which a proposal may be written, and for any edit.
  lemma EditBetweenIsOverwritten(w: World, p: Proposal, change: Change, edited: Json)
    returns (worlds: seq<World>, steps: seq<Step>)
    requires Sound(w) && w.active.Some? && w.active.value in w.records
    requires Entitles(w.records[w.active.value], p.id)
    requires p.id in w.proposals && w.proposals[p.id] == p && change in p.changes
    requires Remaining(p, Snapshot(w.remote, DeclaredPaths(p.desired))).Some?
    ensures IsRun(worlds, steps) && worlds[0] == w
    ensures steps == [Compare(p.id), ThirdPartyEdit, Write(p.id, change)] && worlds[2].remote == edited
    ensures PointerValue(worlds[3].remote, change.path) == PointerValue(p.desired, change.path)
  {
    hide Sound, Entitles, ValidStored, Remaining, Segments, Written, PointerValue, AfterAt, Snapshot, DeclaredPaths;
    hide Next, Compared, IsRun;
    ProposalsOf(w, p, p.id);
    var after := FieldWritten(edited, p, change);
    ComparedAndEdited(w, p.id, edited);
    ComparedMayWrite(w, p, change, edited, after);
    var changed := Compared(w, p.id).(remote := edited);
    worlds := [w, Compared(w, p.id), changed, changed.(remote := after, reading := None)];
    RunOfThree(w, worlds[1], changed, worlds[3], Compare(p.id), ThirdPartyEdit, Write(p.id, change));
    steps := [Compare(p.id), ThirdPartyEdit, Write(p.id, change)];
  }

  // ---- absorbing statuses ----

  ghost predicate Final(w: World, id: string, status: Status) {
    id in w.records && w.records[id].status == status
  }

  lemma FinalStep(w: World, w': World, s: Step, id: string, status: Status)
    requires OneActive(w) && Next(w, w', s)
    requires status == RecoveryRequired || status == Restored
    requires Final(w, id, status)
    ensures Final(w', id, status)
    ensures status == RecoveryRequired ==> !s.Write?
    ensures status == Restored && s.Write? ==> w.active != Some(id)
  {
    match s
    case Save(r) =>
      SaveSource(w, w.records[r.id], r);
      assert r.id == id ==> r.status == RecoveryRequired;
    case _ =>
  }

  lemma FinalNext(worlds: seq<World>, steps: seq<Step>, j: nat, id: string, status: Status)
    requires IsRun(worlds, steps) && Sound(worlds[0]) && j < |steps|
    requires status == RecoveryRequired || status == Restored
    requires Final(worlds[j], id, status)
    ensures Final(worlds[j + 1], id, status)
    ensures status == RecoveryRequired ==> !steps[j].Write?
    ensures status == Restored && steps[j].Write? ==> worlds[j].active != Some(id)
  {
    hide Next;
    SoundRun(worlds, steps, j);
    FinalStep(worlds[j], worlds[j + 1], steps[j], id, status);
  }

  // A restored or recovery-required record keeps its status for good; under a
  // recovery-required one nothing is written to the account any more, and a restored
  // one is never the record a write belongs to.
  lemma {:induction false} FinalRecordsStay(worlds: seq<World>, steps: seq<Step>, i: nat, j: nat, id: string,
      status: Status)
    requires IsRun(worlds, steps) && Sound(worlds[0])
    requires status == RecoveryRequired || status == Restored
    requires i <= j < |worlds| && Final(worlds[i], id, status)
    ensures Final(worlds[j], id, status)
    ensures status == RecoveryRequired && j < |steps| ==> !steps[j].Write?
    ensures status == Restored && j < |steps| && steps[j].Write? ==> worlds[j].active != Some(id)
    decreases j - i
  {
    hide Sound, Next;
    if j > i {
      FinalRecordsStay(worlds, steps, i, j - 1, id, status);
      FinalNext(worlds, steps, j - 1, id, status);
    }
    if j < |steps| {
      FinalNext(worlds, steps, j, id, status);
    }
  }
}
