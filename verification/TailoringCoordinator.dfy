// The coordinator of worker/application_tailoring.go, effect by effect. Storage,
// reader, writer, clock and id generator are environment: their results are
// arbitrary within their contracts, every one of them may fail, before or after it
// took effect, and third parties may edit the account before any of them. Each effect is
// recorded as one step of TailoringRuns, so whatever is proved of runs holds at every
// point where the process may crash.
module TailoringCoordinator {
  import opened Wrappers
  import opened Sorting
  import opened JsonPointer
  import opened JsonTree
  import opened Leaves
  import opened ProfileState
  import opened RetrySafety
  import opened Overrides
  import opened Remote
  import opened Tailoring
  import opened TailoringRuns
  import opened Text

  // What the worker was told while it planned: the observation it read and the overrides the
  // configured processor decided on. trouble counts what went wrong besides: a call that
  // failed, a clock that went back, an id already in use, an edit by a third party.
  datatype Told = Told(trouble: nat, seen: Option<Observation>, overrides: Option<seq<Override>>)

  // Nothing has been told meanwhile, at most something went wrong.
  predicate NoNews(before: Told, after: Told) {
    after == before.(trouble := after.trouble) && before.trouble <= after.trouble
  }

  // Nothing went wrong.
  predicate Smooth(before: Told, after: Told) {
    after.trouble == before.trouble
  }

  const CONFLICTED := "conflicted with current profile state"
  const DRIFTED_AFTER_APPLY := "profile state drifted after tailoring apply"
  const DRIFTED_BEFORE_RESTORE := "profile state drifted before tailoring restore"

  lemma ReasonsSay()
    ensures !Blank(CONFLICTED) && !Blank(DRIFTED_AFTER_APPLY) && !Blank(DRIFTED_BEFORE_RESTORE)
  {
    NotBlank(CONFLICTED, 'c');
    NotBlank(DRIFTED_AFTER_APPLY, 'd');
    NotBlank(DRIFTED_BEFORE_RESTORE, 'd');
  }

  lemma NotBlank(s: string, c: char)
    requires c in s && !IsSpace(c)
    ensures !Blank(s)
  {
    BlankExactly(s);
  }

  datatype Failure = NotFound | Conflicted | RecoveryNeeded | AmbiguousResult | Unavailable | Rejected

  // One expected transition per save; each follows from the draft's contract.
  lemma ApplyBegins(w: World, r: Record, proposalId: string, now: nat)
    requires proposalId in w.proposals && PlanOf(w.proposals[proposalId], r.baseline, r.tailored)
    requires CanBeginApply(r, proposalId, now) && ValidRecord(BegunApply(r, proposalId, now))
    ensures SaveAllowed(w, r, BegunApply(r, proposalId, now))
  {
  }

  lemma ApplyRecorded(w: World, r: Record, now: nat)
    requires r.status == Applying && Saw(w, r, r.tailored) && ValidRecord(Advanced(r, now).(status := Applied))
    ensures SaveAllowed(w, r, Advanced(r, now).(status := Applied))
  {
  }

  lemma SubmitBegins(w: World, r: Record, now: nat)
    requires r.status == Applied && Saw(w, r, r.tailored) && ValidRecord(Advanced(r, now).(status := Submitting))
    ensures SaveAllowed(w, r, Advanced(r, now).(status := Submitting))
  {
  }

  lemma RestoreBegins(w: World, r: Record, proposalId: string, seen: Json, now: nat)
    requires proposalId in w.proposals && PlanOf(w.proposals[proposalId], seen, r.baseline)
    requires seen == r.tailored || seen == r.baseline
    requires Saw(w, r, seen)
    requires CanBeginRestore(r, proposalId, now) && ValidRecord(BegunRestore(r, proposalId, now))
    ensures SaveAllowed(w, r, BegunRestore(r, proposalId, now))
  {
  }

  lemma RestoreRecorded(w: World, r: Record, now: nat)
    requires r.status == Restoring && Saw(w, r, r.baseline) && ValidRecord(Advanced(r, now).(status := Restored))
    ensures SaveAllowed(w, r, Advanced(r, now).(status := Restored))
  {
  }

  lemma RecoveryRecorded(w: World, r: Record, reason: string, now: nat)
    requires r.status != Restored && ValidRecord(RecoveryDemanded(r, reason, now))
    ensures SaveAllowed(w, r, RecoveryDemanded(r, reason, now))
  {
  }

  // A proposal stored under the same key is a plan between the same two trees.
  lemma SameKeySamePlan(stored: Proposal, id: string, resource: Resource, observation: Observation)
    requires ValidStored(stored) && resource.Valid() && observation.Valid()
    requires stored.key == ProposalOf(id, resource, observation).key
    ensures stored.profileId == resource.profileId
    ensures PlanOf(stored, observation.state, resource.state)
  {
  }

  lemma FreshPlan(id: string, resource: Resource, observation: Observation)
    requires resource.Valid() && observation.Valid() && ProposalOf(id, resource, observation).Valid()
    ensures ValidStored(ProposalOf(id, resource, observation))
    ensures PlanOf(ProposalOf(id, resource, observation), observation.state, resource.state)
  {
  }

  lemma SortedIsUnchanged(paths: seq<string>)
    requires StrictlySorted(paths, Identity)
    ensures SortBy(paths, Identity) == paths
  {
    StrictIsDistinct(paths, Identity);
    SortByStrict(paths, Identity);
    SortedUnique(SortBy(paths, Identity), paths, Identity);
  }

  // How often a run has written to the account.
  ghost function CountWrites(steps: seq<Step>): nat {
    if steps == [] then 0
    else CountWrites(steps[..|steps| - 1]) + if steps[|steps| - 1].Write? then 1 else 0
  }

  lemma WritesExtend(steps: seq<Step>, step: Step)
    ensures CountWrites(steps + [step]) == CountWrites(steps) + if step.Write? then 1 else 0
  {
    assert (steps + [step])[..|steps|] == steps;
  }

  // Neither records nor proposals nor the profile lock differ.
  ghost predicate SameStores(a: World, b: World) {
    a.records == b.records && a.proposals == b.proposals && a.active == b.active
  }

  // The worker's proposal may be written: it is stored and the active record is
  // stored as executing it.
  ghost predicate Armed(w: World, p: Proposal) {
    p.id in w.proposals && w.proposals[p.id] == p &&
    w.active.Some? && w.active.value in w.records && Entitles(w.records[w.active.value], p.id)
  }

  lemma ActiveWhileApplying(w: World, r: Record)
    requires Sound(w) && r.id in w.records && w.records[r.id] == r && r.status == Applying
    ensures r.applyProposalId in w.proposals && Armed(w, w.proposals[r.applyProposalId])
    ensures DeclaredPaths(w.proposals[r.applyProposalId].desired) == r.allowedPaths
  {
    assert SoundRecord(w.proposals, r);
    EntitledPlan(w, r, r.applyProposalId);
  }

  lemma ActiveWhileRestoring(w: World, r: Record)
    requires Sound(w) && r.id in w.records && w.records[r.id] == r && r.status == Restoring
    ensures r.restoreProposalId in w.proposals && Armed(w, w.proposals[r.restoreProposalId])
    ensures DeclaredPaths(w.proposals[r.restoreProposalId].desired) == r.allowedPaths
  {
    assert SoundRecord(w.proposals, r);
    EntitledPlan(w, r, r.restoreProposalId);
  }

  lemma AllowedPathsSorted(w: World, r: Record)
    requires Sound(w) && r.id in w.records && w.records[r.id] == r
    ensures SortBy(r.allowedPaths, Identity) == r.allowedPaths
  {
    assert SoundRecord(w.proposals, r);
    DeclaredPathsExact(r.baseline);
    SortedIsUnchanged(r.allowedPaths);
  }

  lemma RecordIsValid(w: World, r: Record)
    requires Sound(w) && r.id in w.records && w.records[r.id] == r
    ensures ValidRecord(r)
  {
    assert SoundRecord(w.proposals, r);
  }

  lemma PlansOfStored(w: World, r: Record)
    requires Sound(w) && r.id in w.records && w.records[r.id] == r
    ensures r.applyProposalId != "" ==>
      r.applyProposalId in w.proposals && PlanOf(w.proposals[r.applyProposalId], r.baseline, r.tailored)
    ensures r.restoreProposalId != "" ==>
      r.restoreProposalId in w.proposals && RestorePlan(w.proposals[r.restoreProposalId], r)
    ensures r.allowedPaths == DeclaredPaths(r.tailored) == DeclaredPaths(r.baseline)
    ensures ValidExecution(r)
  {
    assert SoundRecord(w.proposals, r);
  }

  lemma OthersAreRestored(w: World, id: string)
    requires Sound(w) && id in w.records && w.records[id].status != Restored
    ensures forall other :: other in w.records && other != id ==> w.records[other].status == Restored
  {
    assert w.active == Some(id);
  }

  lemma FreshRecord(w: World, r: Record)
    requires r.id !in w.records && w.active.None? && ValidRecord(r)
    requires r.status == Status.Planned && r.revision == 1 && Saw(w, r, r.baseline)
    ensures Next(w, w.(records := w.records[r.id := r], active := Some(r.id)), Create(r))
  {
  }

  lemma RecoveryStaysValid(r: Record, reason: string, now: nat)
    requires ValidRecord(r)
    ensures CanRequireRecovery(r, reason, now) ==> ValidRecord(RecoveryDemanded(r, reason, now))
  {
    TransitionsStayValid(r, "", reason, Observation("", r.baseline, Digest(r.baseline), ""), now);
  }

  lemma TransitionStaysValid(r: Record, proposalId: string, observation: Observation, now: nat)
    requires ValidRecord(r)
    ensures CanBeginApply(r, proposalId, now) ==> ValidRecord(BegunApply(r, proposalId, now))
    ensures CanRecordApplied(r, observation, now) ==> ValidRecord(Advanced(r, now).(status := Applied))
    ensures CanBeginSubmit(r, now) ==> ValidRecord(Advanced(r, now).(status := Submitting))
    ensures CanBeginRestore(r, proposalId, now) ==> ValidRecord(BegunRestore(r, proposalId, now))
    ensures CanRecordRestored(r, observation, now) ==> ValidRecord(Advanced(r, now).(status := Restored))
  {
    TransitionsStayValid(r, proposalId, "", observation, now);
  }

  // The baseline as it was observed.
  function OwnBaseline(r: Record): Observation {
    Observation(r.profileId, r.baseline, Digest(r.baseline), r.baselineRevision)
  }

  // The states of a valid record make valid parts of a plan.
  lemma OwnParts(r: Record, tag: string)
    requires ValidRecord(r) && 'a' in tag
    ensures !Blank(tag) && r.profileId != "" && OwnBaseline(r).Valid()
    ensures ValidState(r.tailored) && LeavesOf(r.tailored) != []
    ensures ValidState(r.baseline) && LeavesOf(r.baseline) != []
  {
    NotBlank(tag, 'a');
    NoLeavesNoPaths(r.baseline);
    NoLeavesNoPaths(r.tailored);
  }

  // What a save leaves, and what it leaves if it reports a failure.
  predicate Saved(before: World, after: World, r: Record) {
    after.records == before.records[r.id := r] && after.active == if r.status == Restored then None else Some(r.id)
  }

  predicate SavedOrNot(before: World, after: World, r: Record) {
    Saved(before, after, r) || (after.records == before.records && after.active == before.active)
  }

  // Storage does not look at the account.
  lemma AccountDoesNotMatter(w: World, w': World, before: Record, after: Record)
    requires SaveAllowed(w, before, after) && w' == w.(remote := w'.remote)
    ensures SaveAllowed(w', before, after)
  {
  }

  // The compare-and-swap a save stands or falls by.
  ghost predicate Succeeds(before: World, candidate: Record, expectedRevision: nat) {
    candidate.id in before.records && before.records[candidate.id].revision == expectedRevision &&
    candidate.revision == expectedRevision + 1
  }

  // A plan can be made: of valid parts of one profile, within the change limit.
  ghost predicate Plannable(resource: Resource, observation: Observation) {
    resource.Valid() && observation.Valid() && resource.profileId == observation.profileId &&
    |PlannedChanges(observation.state, resource.state)| <= MAXIMUM_CHANGES
  }

  // What the account shows at the declared paths can be settled by the plan: nothing foreign
  // stands there.
  ghost predicate Settleable(p: Proposal, remote: Json) {
    Remaining(p, Snapshot(remote, DeclaredPaths(p.desired))).Some?
  }

  ghost predicate NothingForeign(planned: Json, desired: Json, remote: Json) {
    AllHold(planned, desired, Snapshot(remote, DeclaredPaths(desired)))
  }

  lemma SettleableExactly(p: Proposal, planned: Json, desired: Json, remote: Json)
    requires PlanOf(p, planned, desired)
    ensures Settleable(p, remote) <==> NothingForeign(planned, desired, remote)
  {
    RetryAfterPartialApply(p, planned, Snapshot(remote, DeclaredPaths(desired)));
  }

  // The comparison a store makes before returning an existing record.
  predicate SameStoredInputs(a: Record, b: Record) {
    a.applicationId == b.applicationId && a.attempt == b.attempt && a.profileId == b.profileId &&
    a.allowedPaths == b.allowedPaths && a.baseline == b.baseline && a.tailored == b.tailored &&
    a.baselineRevision == b.baselineRevision && a.createdAt == b.createdAt
  }

  // The record takes what was read for its baseline and carries the overrides: each holds
  // its value in the tailored state, and nothing else differs from what was read.
  ghost predicate Tailors(r: Record, seen: Json, allowedPaths: seq<string>, overrides: seq<Override>) {
    r.baseline == seen && r.allowedPaths == SortBy(allowedPaths, Identity) &&
    (forall i :: 0 <= i < |overrides| ==> overrides[i].path in allowedPaths) &&
    HoldsValues(r.tailored, overrides) && Undisturbed(seen, r.tailored, overrides) &&
    Overridden(seen, overrides) == Some(r.tailored)
  }

  // What a saga can be planned from: overrides of the allowed paths, which are those the
  // account declares, each of a declared leaf by a value that fits there, that change
  // something.
  ghost predicate PlanFits(applicationId: string, profileId: string, allowedPaths: seq<string>, seen: Json,
      overrides: seq<Override>) {
    applicationId != "" && profileId != "" && ValidState(seen) && LeavesOf(seen) != [] && overrides != [] &&
    (forall i :: 0 <= i < |overrides| ==> overrides[i].path in allowedPaths) &&
    Admissible(DeclaredSet(seen), overrides) && ValuesFit(overrides) && Overridden(seen, overrides).Some? &&
    var tailored := Overridden(seen, overrides).value;
    SortBy(allowedPaths, Identity) == DeclaredPaths(seen) && seen != tailored &&
    Differ(seen, tailored, SortBy(allowedPaths, Identity))
  }

  // The saga of the application that is under way.
  ghost predicate UnderWay(w: World, applicationId: string) {
    w.active.Some? && w.active.value in w.records && w.records[w.active.value].applicationId == applicationId
  }

  ghost predicate NoneOf(w: World, applicationId: string) {
    forall id :: id in w.records ==> w.records[id].applicationId != applicationId
  }

  // How applying ends if nothing goes wrong: with no foreign value at its paths it succeeds
  // exactly if the account then reads as tailored, and with one it ends in recovery.
  ghost predicate AppliedAs(before: World, after: World, r: Record, result: Result<Record, Failure>) {
    match r.status
    case Applied => result == Ok(r)
    case Submitting => result == Ok(r)
    case RecoveryRequired => result == Err(RecoveryNeeded)
    case Restoring => result == Err(Rejected)
    case Restored => result == Err(Rejected)
    case _ =>
      if r.status == Status.Planned && |PlannedChanges(r.baseline, r.tailored)| > MAXIMUM_CHANGES
      then result == Err(Rejected)
      else if NothingForeign(r.baseline, r.tailored, before.remote)
      then (result.Ok? <==> Snapshot(after.remote, r.allowedPaths) == r.tailored) &&
           (result.Err? ==> result.error == Rejected)
      else RecoveredFrom(after, r, result)
  }

  // The application has no saga, and this is what its paths show.
  ghost predicate FromNothing(w: World, applicationId: string, allowedPaths: seq<string>, observation: Observation) {
    NoneOf(w, applicationId) && observation.state == Snapshot(w.remote, SortBy(allowedPaths, Identity))
  }

  // How an existing saga is resumed.
  ghost predicate ResumedAs(before: World, after: World, profileId: string, r: Record, attempts: nat,
      result: Result<Option<Record>, Failure>) {
    if r.attempt != attempts + 1 then result == Err(Rejected)
    else
      (result.Ok? ==> result.value.Some?) &&
      (OursIn(before, profileId, r) ==>
        AppliedAs(before, after, r, if result.Ok? then Ok(result.value.value) else Err(result.error)))
  }

  // The record and its stored plans belong to this profile.
  ghost predicate OursIn(w: World, profileId: string, r: Record) {
    r.profileId == profileId && PlanOfProfile(w, profileId, r.applyProposalId) &&
    PlanOfProfile(w, profileId, r.restoreProposalId)
  }

  ghost predicate PlanOfProfile(w: World, profileId: string, proposalId: string) {
    proposalId != "" && proposalId in w.proposals ==> w.proposals[proposalId].profileId == profileId
  }

  // How a new saga ends if nothing goes wrong. Without overrides there is none; it needs
  // fitting overrides, a free profile and a plan within the change limit; and then it
  // succeeds exactly if the account in the end reads as what was read with the overrides
  // put in.
  ghost predicate PlannedAs(before: World, after: World, applicationId: string, profileId: string,
      allowedPaths: seq<string>, overrides: seq<Override>, result: Result<Option<Record>, Failure>) {
    var paths := SortBy(allowedPaths, Identity);
    var seen := Snapshot(before.remote, paths);
    if overrides == [] then result == Ok(None)
    else if !PlanFits(applicationId, profileId, allowedPaths, seen, overrides) || before.active.Some? ||
      |PlannedChanges(seen, Overridden(seen, overrides).value)| > MAXIMUM_CHANGES
    then result == Err(Rejected)
    else
      (result.Ok? <==> Snapshot(after.remote, paths) == Overridden(seen, overrides).value) &&
      (result.Ok? ==> result.value.Some?) && (result.Err? ==> result.error == Rejected)
  }

  // How the start of a submission ends if nothing goes wrong: it begins exactly if the
  // account reads as tailored, and drift ends in recovery.
  ghost predicate SubmittedAs(after: World, r: Record, result: Result<(), Failure>) {
    match r.status
    case Submitting => result.Ok?
    case RecoveryRequired => result == Err(RecoveryNeeded)
    case Applied =>
      if Snapshot(after.remote, r.allowedPaths) == r.tailored
      then result.Ok? && r.id in after.records && after.records[r.id].status == Submitting
      else RecoveredFrom(after, r, result)
    case _ => result == Err(Rejected)
  }

  // No saga ends, and each keeps its inputs.
  ghost predicate StaysUnderWay(before: World, after: World) {
    forall id :: id in before.records && before.records[id].status != Restored ==>
      id in after.records && after.records[id].status != Restored && SameInputs(before.records[id], after.records[id])
  }

  lemma StoresStay(before: World, now: World, after: World)
    requires SameStores(before, now)
    ensures StaysUnderWay(before, now)
    ensures StaysUnderWay(now, after) ==> StaysUnderWay(before, after)
  {
  }

  // How restoring ends if nothing goes wrong: from the tailored or the baseline values, or
  // with a plan whose fields hold no foreign value, it succeeds exactly if the account then
  // reads as it was, and anything else ends in recovery.
  ghost predicate RestoredAs(before: World, after: World, r: Record, result: Result<(), Failure>) {
    if r.status == Restoring then
      r.restoreProposalId in before.proposals &&
      var plan := before.proposals[r.restoreProposalId];
      if plan.status == ProposalNoChanges || NothingForeign(plan.observedDigest.of, r.baseline, before.remote)
      then BackOrRejected(after, r, result)
      else RecoveredFrom(after, r, result)
    else
      var seen := Snapshot(before.remote, r.allowedPaths);
      if seen != r.tailored && seen != r.baseline then RecoveredFrom(after, r, result)
      else if |PlannedChanges(seen, r.baseline)| > MAXIMUM_CHANGES then result == Err(Rejected)
      else BackOrRejected(after, r, result)
  }

  ghost predicate BackOrRejected(after: World, r: Record, result: Result<(), Failure>) {
    (result.Ok? <==> Snapshot(after.remote, r.allowedPaths) == r.baseline) && (result.Err? ==> result.error == Rejected)
  }

  ghost predicate RecoveredFrom<T>(after: World, r: Record, result: Result<T, Failure>) {
    result == Err(RecoveryNeeded) && r.id in after.records && after.records[r.id].status == RecoveryRequired
  }

  lemma NotForeignToItself(r: Record, remote: Json)
    requires ValidRecord(r)
    ensures r.baseline == Snapshot(remote, r.allowedPaths) ==> NothingForeign(r.baseline, r.tailored, remote)
  {
    if r.baseline == Snapshot(remote, r.allowedPaths) {
      NothingForeignNow(r.baseline, r.tailored, remote);
    }
  }

  // How a restore ends that finds a saga under way, if nothing goes wrong.
  ghost predicate EndedAs(before: World, after: World, profileId: string, r: Record, result: Result<(), Failure>) {
    match r.status
    case RecoveryRequired => result == Err(RecoveryNeeded)
    case Planned => result == Err(Rejected)
    case Applying => result == Err(Rejected)
    case _ => OursIn(before, profileId, r) ==> RestoredAs(before, after, r, result)
  }

  // What is read now is not foreign to a plan made from it.
  lemma NothingForeignNow(seen: Json, desired: Json, remote: Json)
    requires seen == Snapshot(remote, DeclaredPaths(desired))
    ensures NothingForeign(seen, desired, remote)
  {
  }

  lemma SameAsItself(r: Record)
    ensures SameStoredInputs(r, r)
    ensures forall a, b :: SameStoredInputs(a, b) ==> a.applicationId == b.applicationId
  {
  }

  class Coordinator {
    const profileId: string
    var world: World
    ghost var worlds: seq<World>
    ghost var steps: seq<Step>
    ghost var writes: nat
    ghost var told: Told

    constructor (profileId: string, world: World)
      requires Sound(world) && world.reading.None? && world.compared.None?
      ensures Valid() && this.world == world && worlds == [world] && this.profileId == profileId
    {
      this.profileId := profileId;
      this.world := world;
      worlds := [world];
      steps := [];
      writes := 0;
      told := Told(0, None, None);
    }

    // The recorded history is a run of the step system and ends in the current world;
    // writes counts its writes to the account.
    ghost predicate Valid()
      reads this`world, this`worlds, this`steps, this`writes
    {
      IsRun(worlds, steps) && Sound(worlds[0]) && worlds[0].compared.None? && worlds[|worlds| - 1] == world &&
      writes == CountWrites(steps)
    }

    // The stored record a worker is driving.
    predicate Stored(r: Record)
      reads this
    {
      r.id in world.records && world.records[r.id] == r
    }

    lemma SoundNow()
      requires Valid()
      ensures Sound(world)
    {
      SoundRun(worlds, steps, |worlds| - 1);
    }

    // What the history says about the record a worker is driving.
    lemma ApplyingIsArmed(r: Record)
      requires Valid() && Stored(r) && r.status == Applying
      ensures r.applyProposalId in world.proposals && Armed(world, world.proposals[r.applyProposalId])
      ensures DeclaredPaths(world.proposals[r.applyProposalId].desired) == r.allowedPaths
    {
      SoundNow();
      ActiveWhileApplying(world, r);
    }

    lemma RestoringIsArmed(r: Record)
      requires Valid() && Stored(r) && r.status == Restoring
      ensures r.restoreProposalId in world.proposals && Armed(world, world.proposals[r.restoreProposalId])
      ensures DeclaredPaths(world.proposals[r.restoreProposalId].desired) == r.allowedPaths
    {
      SoundNow();
      ActiveWhileRestoring(world, r);
    }

    lemma StoredPathsSorted(r: Record)
      requires Valid() && Stored(r)
      ensures SortBy(r.allowedPaths, Identity) == r.allowedPaths
    {
      SoundNow();
      AllowedPathsSorted(world, r);
    }

    lemma OneUnderWay(id: string)
      requires Valid() && id in world.records && world.records[id].status != Restored
      ensures forall other :: other in world.records && other != id ==> world.records[other].status == Restored
    {
      SoundNow();
      OthersAreRestored(world, id);
    }

    lemma NothingUnderWay()
      requires Valid() && world.active.None?
      ensures forall id :: id in world.records ==> world.records[id].status == Restored
    {
      SoundNow();
    }

    lemma LockHolder()
      requires Valid()
      ensures world.active.Some? ==>
        world.active.value in world.records && world.records[world.active.value].id == world.active.value
      ensures forall id :: id in world.records ==>
        world.records[id].id == id && (world.records[id].status != Restored <==> world.active == Some(id))
    {
      SoundNow();
    }

    lemma StoredProposals()
      requires Valid()
      ensures forall id :: id in world.proposals ==> world.proposals[id].id == id && ValidStored(world.proposals[id])
    {
      SoundNow();
    }

    lemma StoredIsValid(r: Record)
      requires Valid() && Stored(r)
      ensures ValidRecord(r)
    {
      SoundNow();
      RecordIsValid(world, r);
    }

    lemma PlansOf(r: Record)
      requires Valid() && Stored(r)
      ensures r.applyProposalId != "" ==>
        r.applyProposalId in world.proposals && PlanOf(world.proposals[r.applyProposalId], r.baseline, r.tailored)
      ensures r.restoreProposalId != "" ==>
        r.restoreProposalId in world.proposals && RestorePlan(world.proposals[r.restoreProposalId], r)
      ensures r.allowedPaths == DeclaredPaths(r.tailored) == DeclaredPaths(r.baseline)
      ensures ValidExecution(r)
    {
      SoundNow();
      PlansOfStored(world, r);
    }

    ghost predicate Ours(r: Record)
      reads this`world
    {
      OursIn(world, profileId, r)
    }

    // What a reader would report of the record's paths.
    ghost function Showing(r: Record): Json
      reads this`world
    {
      Snapshot(world.remote, r.allowedPaths)
    }

    ghost predicate InRecovery(r: Record)
      reads this`world
    {
      r.id in world.records && world.records[r.id].status == RecoveryRequired
    }

    // One durable effect.
    method Take(next: World, ghost step: Step)
      requires Valid() && Next(world, next, step)
      modifies this`world, this`worlds, this`steps, this`writes
      ensures Valid() && world == next
      ensures worlds == old(worlds) + [next] && steps == old(steps) + [step]
      ensures writes == old(writes) + if step.Write? then 1 else 0
    {
      hide Next, Sound;
      RunExtends(worlds, steps, next, step);
      WritesExtend(steps, step);
      worlds := worlds + [next];
      steps := steps + [step];
      writes := writes + if step.Write? then 1 else 0;
      world := next;
    }

    ghost method Trouble()
      modifies this`told
      ensures told == old(told).(trouble := old(told).trouble + 1)
    {
      told := told.(trouble := told.trouble + 1);
    }

    // Whatever a third party may have done to the account in the meantime.
    method Interference()
      requires Valid()
      modifies this
      ensures Valid() && old(worlds) <= worlds && writes == old(writes)
      ensures world == old(world).(remote := world.remote)
      ensures NoNews(old(told), told)
      ensures Smooth(old(told), told) ==> world == old(world)
    {
      hide Valid, Sound;
      if * {
        var edited: Json := *;
        Trouble();
        Take(world.(remote := edited), ThirdPartyEdit);
      }
    }

    // ---- environment ----

    method Anything() returns (n: nat) {
      var value: int := *;
      n := if value < 0 then 0 else value;
    }

    // The time, for the next transition of the record.
    method Clock(r: Record) returns (now: nat)
      modifies this`told
      ensures NoNews(old(told), told)
      ensures Smooth(old(told), told) ==> ClockAllows(r, now)
    {
      now := Anything();
      if !ClockAllows(r, now) {
        Trouble();
      }
    }

    // ProfileStateReader: the current values at all requested paths, or a failure.
    method ReadProfileState(paths: seq<string>) returns (r: Result<Observation, Failure>)
      requires Valid()
      modifies this
      ensures Valid() && old(worlds) <= worlds && writes == old(writes)
      ensures SameStores(old(world), world)
      ensures r.Ok? ==> r.value.profileId == profileId && r.value.digest == Digest(r.value.state)
      ensures r.Ok? ==> world.reading == Some(Reading(SortBy(paths, Identity), r.value.state))
      ensures NoNews(old(told), told)
      ensures Smooth(old(told), told) ==>
        r.Ok? && world.remote == old(world).remote &&
        r.value.state == Snapshot(world.remote, SortBy(paths, Identity)) &&
        ValidState(r.value.state)
    {
      hide Valid, Sound, ValidState, Snapshot;
      Interference();
      if * {
        Trouble();
        return Err(Unavailable);
      }
      var sorted := SortBy(paths, Identity);
      var revision: string := *;
      var state: Json := ReadSnapshot(sorted);
      Readable(state);
      Take(world.(reading := Some(Reading(sorted, state))), Read(sorted));
      r := Ok(Observation(profileId, state, Digest(state), revision));
    }

    // A reader that reports no valid state counts as trouble.
    ghost method Readable(state: Json)
      modifies this`told
      ensures NoNews(old(told), told)
      ensures Smooth(old(told), told) ==> ValidState(state)
    {
      if !ValidState(state) {
        Trouble();
      }
    }

    method ReadSnapshot(paths: seq<string>) returns (state: Json)
      ensures state == Snapshot(world.remote, paths)
    {
      state := Object(map[]);
      assert paths[..0] == [];
      for i := 0 to |paths|
        invariant state == Snapshot(world.remote, paths[..i])
      {
        assert paths[..i + 1][..i] == paths[..i];
        var value := PointerValue(world.remote, paths[i]);
        var at := Segments(paths[i]);
        if at.Some? && value.Some? {
          state := WriteAt(state, at.value, value.value);
        }
      }
      assert paths[..|paths|] == paths;
    }

    // The writer's comparing read.
    method CompareState(p: Proposal) returns (r: Result<Observation, Failure>)
      requires Valid() && Armed(world, p)
      modifies this
      ensures Valid() && old(worlds) <= worlds && writes == old(writes)
      ensures SameStores(old(world), world)
      ensures r.Ok? ==> r.value.profileId == profileId && r.value.digest == Digest(r.value.state)
      ensures r.Ok? ==> world.reading == Some(Reading(DeclaredPaths(p.desired), r.value.state))
      ensures r.Ok? ==> world.compared == Some(Comparison(p.id, r.value.state))
      ensures NoNews(old(told), told)
      ensures Smooth(old(told), told) ==>
        r.Ok? && world.remote == old(world).remote &&
        r.value.state == Snapshot(world.remote, DeclaredPaths(p.desired)) &&
        ValidState(r.value.state)
    {
      hide Valid, Sound, ValidState, Snapshot;
      Interference();
      if * {
        Trouble();
        return Err(Unavailable);
      }
      var paths := DeclaredPathsOf(p.desired);
      var revision: string := *;
      var state: Json := ReadSnapshot(paths);
      Readable(state);
      Take(world.(reading := Some(Reading(paths, state)), compared := Some(Comparison(p.id, state))), Compare(p.id));
      r := Ok(Observation(profileId, state, Digest(state), revision));
    }

    // One field of the proposal is being written, on the strength of that read.
    ghost predicate MayWrite(p: Proposal)
      reads this
    {
      Armed(world, p) && world.compared.Some? && world.compared.value.proposalId == p.id &&
      Remaining(p, world.compared.value.seen).Some?
    }

    // The write may fail, and may report a failure although it took effect.
    method WriteField(p: Proposal, change: Change) returns (ok: bool)
      requires Valid() && MayWrite(p) && change in p.changes
      modifies this
      ensures Valid() && old(worlds) <= worlds && MayWrite(p)
      ensures SameStores(old(world), world)
      ensures NoNews(old(told), told)
    {
      hide Valid, Sound;
      Interference();
      var at := Segments(change.path);
      var after := PointerValue(p.desired, change.path);
      if at.None? || at.value == [] || after.None? {
        return false;
      }
      if * {
        Trouble();
        return false;
      }
      var remote := WriteAt(world.remote, at.value, after.value);
      if after.value.Null? {
        // A cleared field may also be dropped.
        if * {
          remote := RemoveAt(world.remote, at.value);
        }
      }
      Take(world.(remote := remote, reading := None), Write(p.id, change));
      ok := *;
    }

    // ProfileStateWriter: compare with the proposal, write fields in any order, possibly
    // not all of them, and read the result back. If nothing is pending the comparing read
    // is the result.
    method ApplyProfileState(p: Proposal) returns (r: Result<Observation, Failure>)
      requires Valid() && Armed(world, p)
      modifies this
      ensures Valid() && old(worlds) <= worlds
      ensures SameStores(old(world), world)
      ensures r.Ok? ==> r.value.profileId == profileId && r.value.digest == Digest(r.value.state)
      ensures r.Ok? ==> world.reading == Some(Reading(DeclaredPaths(p.desired), r.value.state))
      ensures NoNews(old(told), told)
      ensures Smooth(old(told), told) && p.Valid() && p.profileId == profileId ==>
        (r.Ok? <==> Settleable(p, old(world).remote)) && (r.Err? ==> r.error == Conflicted)
      ensures Smooth(old(told), told) && p.Valid() && p.profileId == profileId && r.Ok? ==>
        r.value.Valid() && Remaining(p, r.value.state) == Some([]) &&
        r.value.state == Snapshot(world.remote, DeclaredPaths(p.desired))
    {
      hide Valid, Sound, ValidState, Remaining, LeavesOf, Snapshot, ValidChanges;
      r := CompareState(p);
      if r.Err? {
        return;
      }
      var pending := ChangesToApply(p, r.value);
      if pending.Err? {
        return Err(Conflicted);
      }
      if |pending.value| == 0 {
        return;
      }
      r := WriteAndReadBack(p);
    }

    method WriteAndReadBack(p: Proposal) returns (r: Result<Observation, Failure>)
      requires Valid() && MayWrite(p)
      modifies this
      ensures Valid() && old(worlds) <= worlds
      ensures SameStores(old(world), world)
      ensures r.Ok? ==> r.value.profileId == profileId && r.value.digest == Digest(r.value.state)
      ensures r.Ok? ==> world.reading == Some(Reading(DeclaredPaths(p.desired), r.value.state))
      ensures NoNews(old(told), told)
      ensures Smooth(old(told), told) ==>
        r.Ok? && ValidState(r.value.state) && Remaining(p, r.value.state) == Some([]) &&
        r.value.state == Snapshot(world.remote, DeclaredPaths(p.desired))
    {
      hide Valid, Sound, ValidState, Remaining, Snapshot;
      var completed := WriteSome(p);
      if !completed.Ok? {
        return Err(completed.error);
      }
      var paths := DeclaredPathsOf(p.desired);
      DeclaredPathsExact(p.desired);
      SortedIsUnchanged(paths);
      r := ReadProfileState(paths);
    }

    // Fields written in any order, any number of times, stopping anywhere. A shipped
    // writer sends the pending ones, or with them the other fields of their documents.
    method WriteSome(p: Proposal) returns (r: Result<(), Failure>)
      requires Valid() && MayWrite(p)
      modifies this
      ensures Valid() && old(worlds) <= worlds
      ensures SameStores(old(world), world)
      ensures NoNews(old(told), told)
      ensures Smooth(old(told), told) ==>
        r.Ok? && Remaining(p, Snapshot(world.remote, DeclaredPaths(p.desired))) == Some([])
    {
      hide Valid, Sound;
      var rounds := Anything();
      for i := 0 to rounds
        invariant Valid() && old(worlds) <= worlds && MayWrite(p)
        invariant SameStores(old(world), world) && NoNews(old(told), told)
      {
        var k := Anything();
        if k < |p.changes| {
          var ok := WriteField(p, p.changes[k]);
          if !ok {
            Trouble();
            var failure: Failure := *;
            return Err(failure);
          }
        }
        if * {
          Trouble();
          return Err(Unavailable);
        }
      }
      Written(p);
      r := Ok(());
    }

    // A writer that reports success with fields left to write counts as trouble.
    ghost method Written(p: Proposal)
      modifies this`told
      ensures NoNews(old(told), told)
      ensures Smooth(old(told), told) ==> Remaining(p, Snapshot(world.remote, DeclaredPaths(p.desired))) == Some([])
    {
      if Remaining(p, Snapshot(world.remote, DeclaredPaths(p.desired))) != Some([]) {
        Trouble();
      }
    }

    // CreateProfileStateProposal: idempotent by id and by input key.
    method StoreProposal(candidate: Proposal) returns (r: Result<Proposal, Failure>)
      requires Valid() && ValidStored(candidate)
      modifies this
      ensures Valid() && old(worlds) <= worlds && writes == old(writes)
      ensures world.records == old(world).records && world.active == old(world).active &&
        world.reading == old(world).reading
      ensures forall id :: id in old(world).proposals ==>
        id in world.proposals && world.proposals[id] == old(world).proposals[id]
      ensures r.Ok? ==> r.value.id in world.proposals && world.proposals[r.value.id] == r.value
      ensures r.Ok? ==> ValidStored(r.value) && r.value.key == candidate.key
      ensures NoNews(old(told), told)
      ensures Smooth(old(told), told) ==> r.Ok? && world.remote == old(world).remote
    {
      hide Valid, Sound, ValidStored;
      Interference();
      if * {
        Trouble();
        return Err(Unavailable);
      }
      StoredProposals();
      if candidate.id in world.proposals {
        if world.proposals[candidate.id] != candidate {
          Trouble();
          return Err(Rejected);
        }
        return Ok(candidate);
      }
      if exists id | id in world.proposals.Keys :: world.proposals[id].key == candidate.key {
        var id :| id in world.proposals.Keys && world.proposals[id].key == candidate.key;
        return Ok(world.proposals[id]);
      }
      Take(world.(proposals := world.proposals[candidate.id := candidate]), Propose(candidate));
      r := Ok(candidate);
      if * {
        Trouble();
        r := Err(Unavailable);
      }
    }

    // ApplicationTailoringByApplication. Its contract leaves open whether a restored
    // record may be returned once no other record of the application is under way.
    method ByApplication(applicationId: string) returns (r: Result<Record, Failure>)
      requires Valid()
      modifies this
      ensures Valid() && old(worlds) <= worlds && writes == old(writes)
      ensures world == old(world).(remote := world.remote)
      ensures r.Ok? ==> Stored(r.value) && r.value.applicationId == applicationId
      ensures (r.Err? && r.error == NotFound) || (r.Ok? && r.value.status == Restored) ==>
        forall id :: id in world.records && world.records[id].applicationId == applicationId ==>
          world.records[id].status == Restored
      ensures NoNews(old(told), told)
      ensures Smooth(old(told), told) ==> world == old(world) && (r.Ok? || r.error == NotFound)
      ensures r.Ok? && r.value.status != Restored ==> world.active == Some(r.value.id)
      ensures r.Ok? && r.value.status == Restored ==>
        !(world.active.Some? && world.active.value in world.records &&
          world.records[world.active.value].applicationId == applicationId)
    {
      hide Valid, Sound;
      Interference();
      if * {
        Trouble();
        return Err(Unavailable);
      }
      LockHolder();
      if world.active.Some? && world.records[world.active.value].applicationId == applicationId {
        return Ok(world.records[world.active.value]);
      }
      if exists id | id in world.records.Keys :: world.records[id].applicationId == applicationId {
        if * {
          var id :| id in world.records.Keys && world.records[id].applicationId == applicationId;
          return Ok(world.records[id]);
        }
      }
      r := Err(NotFound);
    }

    // SaveApplicationTailoring: compare-and-swap on the revision.
    method SaveRecord(candidate: Record, expectedRevision: nat) returns (saved: bool)
      requires Valid() && candidate.id in world.records
      requires SaveAllowed(world, world.records[candidate.id], candidate)
      modifies this
      ensures Valid() && old(worlds) <= worlds && writes == old(writes)
      ensures world.proposals == old(world).proposals
      ensures SavedOrNot(old(world), world, candidate)
      ensures saved ==> Saved(old(world), world, candidate)
      ensures NoNews(old(told), told)
      ensures Smooth(old(told), told) ==> world.remote == old(world).remote
      ensures Smooth(old(told), told) && Succeeds(old(world), candidate, expectedRevision) ==> saved
      ensures saved ==> Succeeds(old(world), candidate, expectedRevision)
    {
      hide Valid, Sound, SaveAllowed;
      ghost var before := world;
      Interference();
      if * {
        Trouble();
        return false;
      }
      var stored := world.records[candidate.id];
      if stored.revision != expectedRevision || candidate.revision != expectedRevision + 1 {
        return false;
      }
      AccountDoesNotMatter(before, world, stored, candidate);
      Take(world.(records := world.records[candidate.id := candidate],
                  active := if candidate.status == Restored then None else Some(candidate.id)),
           Save(candidate));
      saved := *;
      if !saved {
        Trouble();
      }
    }

    // ---- transitions of the worker's copy, each at its own time ----

    method BeginApply(stored: Record, proposalId: string) returns (r: Option<Record>, now: nat)
      modifies this`told
      ensures NoNews(old(told), told)
      ensures r == if CanBeginApply(stored, proposalId, now) && ValidRecord(BegunApply(stored, proposalId, now))
                   then Some(BegunApply(stored, proposalId, now)) else None
      ensures Smooth(old(told), told) ==> ClockAllows(stored, now)
    {
      hide Valid, ValidRecord;
      var draft := new Draft(stored);
      now := Clock(stored);
      var ok := draft.BeginApply(proposalId, now);
      r := if ok then Some(draft.record) else None;
    }

    method RecordApplied(stored: Record, observation: Observation) returns (r: Option<Record>, now: nat)
      modifies this`told
      ensures NoNews(old(told), told)
      ensures r == if CanRecordApplied(stored, observation, now) &&
                      ValidRecord(Advanced(stored, now).(status := Applied))
                   then Some(Advanced(stored, now).(status := Applied)) else None
      ensures Smooth(old(told), told) ==> ClockAllows(stored, now)
    {
      hide Valid, ValidRecord;
      var draft := new Draft(stored);
      now := Clock(stored);
      var ok := draft.RecordApplied(observation, now);
      r := if ok then Some(draft.record) else None;
    }

    method BeginSubmitting(stored: Record) returns (r: Option<Record>, now: nat)
      modifies this`told
      ensures NoNews(old(told), told)
      ensures r == if CanBeginSubmit(stored, now) && ValidRecord(Advanced(stored, now).(status := Submitting))
                   then Some(Advanced(stored, now).(status := Submitting)) else None
      ensures Smooth(old(told), told) ==> ClockAllows(stored, now)
    {
      hide Valid, ValidRecord;
      var draft := new Draft(stored);
      now := Clock(stored);
      var ok := draft.BeginSubmit(now);
      r := if ok then Some(draft.record) else None;
    }

    method BeginRestore(stored: Record, proposalId: string) returns (r: Option<Record>, now: nat)
      modifies this`told
      ensures NoNews(old(told), told)
      ensures r == if CanBeginRestore(stored, proposalId, now) && ValidRecord(BegunRestore(stored, proposalId, now))
                   then Some(BegunRestore(stored, proposalId, now)) else None
      ensures Smooth(old(told), told) ==> ClockAllows(stored, now)
    {
      hide Valid, ValidRecord;
      var draft := new Draft(stored);
      now := Clock(stored);
      var ok := draft.BeginRestore(proposalId, now);
      r := if ok then Some(draft.record) else None;
    }

    method RecordRestored(stored: Record, observation: Observation) returns (r: Option<Record>, now: nat)
      modifies this`told
      ensures NoNews(old(told), told)
      ensures r == if CanRecordRestored(stored, observation, now) &&
                      ValidRecord(Advanced(stored, now).(status := Restored))
                   then Some(Advanced(stored, now).(status := Restored)) else None
      ensures Smooth(old(told), told) ==> ClockAllows(stored, now)
    {
      hide Valid, ValidRecord;
      var draft := new Draft(stored);
      now := Clock(stored);
      var ok := draft.RecordRestored(observation, now);
      r := if ok then Some(draft.record) else None;
    }

    method RequireRecovery(stored: Record, reason: string) returns (r: Option<Record>, now: nat)
      modifies this`told
      ensures NoNews(old(told), told)
      ensures r == if CanRequireRecovery(stored, reason, now) && ValidRecord(RecoveryDemanded(stored, reason, now))
                   then Some(RecoveryDemanded(stored, reason, now)) else None
      ensures Smooth(old(told), told) ==> ClockAllows(stored, now)
      ensures r.Some? ==> r.value.status == RecoveryRequired
    {
      hide Valid, ValidRecord;
      var draft := new Draft(stored);
      now := Clock(stored);
      var ok := draft.RequireRecovery(reason, now);
      r := if ok then Some(draft.record) else None;
    }

    // ---- the coordinator ----

    method CreateProposal(resource: Resource, observation: Observation) returns (r: Result<Proposal, Failure>)
      requires Valid()
      modifies this
      ensures Valid() && old(worlds) <= worlds && writes == old(writes)
      ensures world.records == old(world).records && world.active == old(world).active &&
        world.reading == old(world).reading
      ensures r.Ok? ==> r.value.id in world.proposals && world.proposals[r.value.id] == r.value
      ensures r.Ok? ==> PlanOf(r.value, observation.state, resource.state)
      ensures NoNews(old(told), told)
      ensures r.Ok? ==> r.value.profileId == resource.profileId
      ensures Smooth(old(told), told) ==>
        (r.Ok? <==> Plannable(resource, observation)) && (r.Err? ==> r.error == Rejected) &&
        world.remote == old(world).remote
      ensures forall id :: id in old(world).proposals ==>
        id in world.proposals && world.proposals[id] == old(world).proposals[id]
    {
      hide Valid, Sound;
      if * {
        Trouble();
        return Err(Unavailable);
      }
      var id: string := *;
      if id == "" {
        Trouble();
      }
      var proposal := NewProfileStateProposal(id, resource, observation);
      if proposal.Err? {
        return Err(Rejected);
      }
      FreshPlan(id, resource, observation);
      r := StoreProposal(proposal.value);
      if r.Ok? {
        SameKeySamePlan(r.value, id, resource, observation);
      }
    }

    // The read-back is checked by the coordinator too, not left to the writer.
    method ApplyProposal(p: Proposal) returns (r: Result<Observation, Failure>)
      requires Valid() && Armed(world, p)
      modifies this
      ensures Valid() && old(worlds) <= worlds
      ensures SameStores(old(world), world)
      ensures r.Ok? ==> r.value.profileId == profileId && r.value.digest == Digest(r.value.state)
      ensures r.Ok? ==> world.reading == Some(Reading(DeclaredPaths(p.desired), r.value.state))
      ensures r.Ok? ==> Remaining(p, r.value.state) == Some([])
      ensures NoNews(old(told), told)
      ensures Smooth(old(told), told) && p.Valid() && p.profileId == profileId ==>
        (r.Ok? <==> Settleable(p, old(world).remote)) && (r.Err? ==> r.error == Conflicted)
      ensures Smooth(old(told), told) && p.Valid() && p.profileId == profileId && r.Ok? ==>
        r.value.state == Snapshot(world.remote, DeclaredPaths(p.desired))
    {
      hide Valid, Sound;
      var result := ApplyProfileState(p);
      if result.Err? {
        return result;
      }
      var observationValid := ValidateObservation(result.value);
      if !observationValid {
        return Err(Rejected);
      }
      var pending := ChangesToApply(p, result.value);
      if pending.Err? {
        return Err(if pending.error.StateChanged? then Conflicted else Rejected);
      }
      if |pending.value| != 0 {
        return Err(AmbiguousResult);
      }
      r := result;
    }

    method MarkRecovery(stored: Record, reason: string) returns (failure: Failure)
      requires Valid() && Stored(stored)
      modifies this
      ensures Valid() && old(worlds) <= worlds && writes == old(writes)
      ensures failure == RecoveryNeeded ==> InRecovery(stored)
      ensures NoNews(old(told), told)
      ensures Smooth(old(told), told) && stored.status != Restored && !Blank(reason) ==> failure == RecoveryNeeded
      ensures Smooth(old(told), told) ==> world.remote == old(world).remote
      ensures StaysUnderWay(old(world), world)
    {
      hide Valid, Sound, ValidRecord, Trim;
      StoredIsValid(stored);
      var next, now := RequireRecovery(stored, reason);
      RecoveryStaysValid(stored, reason, now);
      if next.None? {
        return Rejected;
      }
      RecoveryRecorded(world, stored, reason, now);
      var saved := SaveRecord(next.value, stored.revision);
      failure := if saved then RecoveryNeeded else Unavailable;
    }

    // A conflict ends the saga in recovery; any other failure is left to a retry.
    method HandleMutationError(stored: Record, failure: Failure) returns (r: Failure)
      requires Valid() && Stored(stored)
      modifies this
      ensures Valid() && old(worlds) <= worlds && writes == old(writes)
      ensures failure != Conflicted ==> r == failure && world == old(world) && told == old(told)
      ensures failure == Conflicted && r == RecoveryNeeded ==> InRecovery(stored)
      ensures NoNews(old(told), told)
      ensures Smooth(old(told), told) && stored.status != Restored && failure == Conflicted ==> r == RecoveryNeeded
    {
      hide Valid, Sound;
      r := failure;
      if failure == Conflicted {
        ReasonsSay();
        r := MarkRecovery(stored, CONFLICTED);
      }
    }

    // Persist that the tailored plan is being executed.
    method StartApply(stored: Record) returns (r: Result<Record, Failure>)
      requires Valid() && Stored(stored) && stored.status == Status.Planned
      modifies this
      ensures Valid() && old(worlds) <= worlds && writes == old(writes)
      ensures r.Ok? ==> Stored(r.value) && r.value.status == Applying && SameInputs(stored, r.value)
      ensures NoNews(old(told), told)
      ensures r.Ok? ==> stored.profileId == profileId ==> Ours(r.value)
      ensures Smooth(old(told), told) ==>
        (r.Ok? <==> |PlannedChanges(stored.baseline, stored.tailored)| <= MAXIMUM_CHANGES) &&
        (r.Err? ==> r.error == Rejected) && world.remote == old(world).remote
    {
      hide Valid, Sound, ValidRecord, PlannedChanges;
      StoredIsValid(stored);
      var proposal := ProposeApply(stored);
      if proposal.Err? {
        return Err(proposal.error);
      }
      r := StoreApplying(stored, proposal.value);
    }

    method StoreApplying(stored: Record, proposal: Proposal) returns (r: Result<Record, Failure>)
      requires Valid() && Stored(stored) && stored.status == Status.Planned
      requires proposal.id != "" && proposal.id in world.proposals && world.proposals[proposal.id] == proposal
      requires PlanOf(proposal, stored.baseline, stored.tailored) && proposal.profileId == stored.profileId
      modifies this
      ensures Valid() && old(worlds) <= worlds && writes == old(writes)
      ensures r.Ok? ==> Stored(r.value) && r.value.status == Applying && SameInputs(stored, r.value)
      ensures NoNews(old(told), told)
      ensures r.Ok? ==> stored.profileId == profileId ==> Ours(r.value)
      ensures Smooth(old(told), told) ==> r.Ok? && world.remote == old(world).remote
      ensures r.Err? ==> r.error == Rejected || r.error == Unavailable
    {
      hide Valid, Sound, ValidRecord, PlanOf;
      StoredIsValid(stored);
      assert stored.restoreProposalId == "" by {
        PlansOf(stored);
      }
      var next, now := BeginApply(stored, proposal.id);
      TransitionStaysValid(stored, proposal.id, OwnBaseline(stored), now);
      if next.None? {
        return Err(Rejected);
      }
      ApplyBegins(world, stored, proposal.id, now);
      var saved := SaveRecord(next.value, stored.revision);
      r := if saved then Ok(next.value) else Err(Unavailable);
    }

    // The plan from the baseline to the tailored state.
    method ProposeApply(stored: Record) returns (r: Result<Proposal, Failure>)
      requires Valid() && Stored(stored) && stored.status == Status.Planned
      modifies this
      ensures Valid() && old(worlds) <= worlds && writes == old(writes) && Stored(stored)
      ensures r.Ok? ==> r.value.id in world.proposals && world.proposals[r.value.id] == r.value && r.value.id != ""
      ensures r.Ok? ==> PlanOf(r.value, stored.baseline, stored.tailored) && r.value.profileId == stored.profileId
      ensures NoNews(old(told), told)
      ensures Smooth(old(told), told) ==>
        (r.Ok? <==> |PlannedChanges(stored.baseline, stored.tailored)| <= MAXIMUM_CHANGES) &&
        (r.Err? ==> r.error == Rejected) && world.remote == old(world).remote
    {
      hide Valid, Sound, PlannedChanges, ValidRecord, ValidState, LeavesOf, Trim;
      StoredIsValid(stored);
      OwnParts(stored, "application-tailoring:" + stored.id + ":apply");
      var resource := NewProfileStateResource("application-tailoring:" + stored.id + ":apply", stored.profileId,
        stored.tailored);
      if resource.Err? {
        return Err(Rejected);
      }
      r := CreateProposal(resource.value, OwnBaseline(stored));
      if r.Ok? {
        StoredProposalHasId(r.value);
      }
    }

    lemma StoredProposalHasId(p: Proposal)
      requires Valid() && p.id in world.proposals && world.proposals[p.id] == p
      ensures p.id != "" && p.Valid()
    {
      StoredProposals();
    }

    // Execute the stored plan and persist that it is done.
    method FinishApply(stored: Record) returns (r: Result<Record, Failure>)
      requires Valid() && Stored(stored) && stored.status == Applying
      modifies this
      ensures Valid() && old(worlds) <= worlds
      ensures r.Ok? ==> Stored(r.value) && r.value.status == Applied && SameInputs(stored, r.value)
      ensures NoNews(old(told), told)
      ensures Smooth(old(told), told) && old(Ours(stored)) ==>
        if NothingForeign(stored.baseline, stored.tailored, old(world).remote)
        then (r.Ok? <==> Showing(stored) == stored.tailored) && (r.Err? ==> r.error == Rejected)
        else r == Err(RecoveryNeeded) && InRecovery(stored)
    {
      hide Valid, Sound, ValidRecord, AllHold, Remaining;
      StoredIsValid(stored);
      ApplyingIsArmed(stored);
      var proposal := world.proposals[stored.applyProposalId];
      StoredProposalHasId(proposal);
      PlansOf(stored);
      SettleableExactly(proposal, stored.baseline, stored.tailored, world.remote);
      var result := ApplyProposal(proposal);
      if result.Err? {
        var failure := HandleMutationError(stored, result.error);
        return Err(failure);
      }
      r := StoreApplied(stored, result.value);
    }

    // Persist that the account was read as tailored.
    method StoreApplied(stored: Record, observation: Observation) returns (r: Result<Record, Failure>)
      requires Valid() && Stored(stored) && stored.status == Applying
      requires Saw(world, stored, observation.state) && observation.digest == Digest(observation.state)
      modifies this
      ensures Valid() && old(worlds) <= worlds
      ensures r.Ok? ==> Stored(r.value) && r.value.status == Applied && SameInputs(stored, r.value)
      ensures NoNews(old(told), told)
      ensures Smooth(old(told), told) ==>
        (r.Ok? <==> observation.profileId == stored.profileId && observation.state == stored.tailored) &&
        (r.Err? ==> r.error == Rejected) && world.remote == old(world).remote
    {
      hide Valid, Sound, ValidRecord;
      StoredIsValid(stored);
      var next, now := RecordApplied(stored, observation);
      TransitionStaysValid(stored, "", observation, now);
      if next.None? {
        return Err(Rejected);
      }
      ApplyRecorded(world, stored, now);
      var saved := SaveRecord(next.value, stored.revision);
      if !saved {
        return Err(Unavailable);
      }
      r := Ok(next.value);
    }

    method DriveApply(tailoring: Record) returns (r: Result<Record, Failure>)
      requires Valid() && Stored(tailoring)
      modifies this
      ensures Valid() && old(worlds) <= worlds
      ensures r.Ok? ==> Stored(r.value) && SameInputs(tailoring, r.value)
      ensures r.Ok? ==> r.value.status == Applied || r.value.status == Submitting
      ensures NoNews(old(told), told)
      ensures Smooth(old(told), told) && old(Ours(tailoring)) ==> AppliedAs(old(world), world, tailoring, r)
    {
      hide Valid, Sound, PlannedChanges, NothingForeign;
      if tailoring.status == Applied || tailoring.status == Submitting {
        return Ok(tailoring);
      }
      if tailoring.status == RecoveryRequired {
        return Err(RecoveryNeeded);
      }
      if tailoring.status == Restoring || tailoring.status == Restored {
        return Err(Rejected);
      }
      if tailoring.status == Applying {
        r := FinishApply(tailoring);
        return;
      }
      var started := StartApply(tailoring);
      if started.Err? {
        return started;
      }
      r := FinishApply(started.value);
    }

    // CreateApplicationTailoring: idempotent by id and by application, refused while
    // the profile is locked by another record.
    method StoreRecord(candidate: Record) returns (r: Result<Record, Failure>)
      requires Valid() && ValidRecord(candidate) && candidate.status == Status.Planned && candidate.revision == 1
      requires Saw(world, candidate, candidate.baseline)
      modifies this
      ensures Valid() && old(worlds) <= worlds && writes == old(writes)
      ensures r.Ok? ==> Stored(r.value) && SameStoredInputs(r.value, candidate)
      ensures NoNews(old(told), told)
      ensures Smooth(old(told), told) ==> world.remote == old(world).remote
      ensures Smooth(old(told), told) && NoneOf(old(world), candidate.applicationId) ==>
        r == if old(world).active.None? then Ok(candidate) else Err(Rejected)
    {
      hide Valid, Sound, ValidRecord, SameStoredInputs;
      SameAsItself(candidate);
      Interference();
      if * {
        Trouble();
        return Err(Unavailable);
      }
      LockHolder();
      if candidate.id in world.records {
        var stored := world.records[candidate.id];
        if !SameStoredInputs(stored, candidate) {
          Trouble();
          return Err(Rejected);
        }
        return Ok(stored);
      }
      if world.active.Some? {
        var stored := world.records[world.active.value];
        return if stored.applicationId == candidate.applicationId && SameStoredInputs(stored, candidate)
          then Ok(stored) else Err(Rejected);
      }
      r := InsertRecord(candidate);
    }

    method InsertRecord(candidate: Record) returns (r: Result<Record, Failure>)
      requires Valid() && ValidRecord(candidate) && candidate.status == Status.Planned && candidate.revision == 1
      requires candidate.id !in world.records && world.active.None? && Saw(world, candidate, candidate.baseline)
      modifies this
      ensures Valid() && old(worlds) <= worlds && writes == old(writes)
      ensures r.Ok? ==> Stored(candidate) && r.value == candidate
      ensures NoNews(old(told), told)
      ensures Smooth(old(told), told) ==> r.Ok? && world.remote == old(world).remote
    {
      hide Valid, Sound, ValidRecord;
      FreshRecord(world, candidate);
      Take(world.(records := world.records[candidate.id := candidate], active := Some(candidate.id)),
        Create(candidate));
      r := Ok(candidate);
      if * {
        Trouble();
        r := Err(Unavailable);
      }
    }

    // Apply resumes the application's saga or plans and stores a new one, then drives
    // it. The overrides are whatever the configured processor decides on: a new saga carries
    // exactly those, and without any nothing is stored.
    method Apply(applicationId: string, attempts: nat, allowedPaths: seq<string>)
      returns (r: Result<Option<Record>, Failure>)
      requires Valid()
      modifies this
      ensures Valid() && old(worlds) <= worlds && old(told).trouble <= told.trouble
      ensures r.Ok? && r.value.Some? ==> Stored(r.value.value) && r.value.value.applicationId == applicationId
      ensures r.Ok? && r.value.Some? ==> r.value.value.attempt == attempts + 1
      ensures r.Ok? && r.value.Some? ==> r.value.value.status == Applied || r.value.value.status == Submitting
      ensures r.Ok? && r.value.None? ==> SameStores(old(world), world) && writes == old(writes)
      ensures r.Ok? ==> (r.value.None? <==> told.overrides == Some([]))
      ensures r.Ok? && told.overrides.None? ==>
        r.value.value.id in old(world).records && SameInputs(old(world).records[r.value.value.id], r.value.value)
      ensures r.Ok? && r.value.Some? && told.overrides.Some? ==>
        told.seen.Some? && Tailors(r.value.value, told.seen.value.state, allowedPaths, told.overrides.value)
      ensures Smooth(old(told), told) && UnderWay(old(world), applicationId) ==>
        ResumedAs(old(world), world, profileId, old(world).records[old(world).active.value], attempts, r)
      ensures Smooth(old(told), told) && NoneOf(old(world), applicationId) ==>
        told.seen.Some? && told.overrides.Some? &&
        told.seen.value.state == Snapshot(old(world).remote, SortBy(allowedPaths, Identity)) &&
        PlannedAs(old(world), world, applicationId, profileId, allowedPaths, told.overrides.value, r)
    {
      hide Valid, Sound, ResumedAs, PlannedAs, Tailors, Snapshot;
      told := told.(seen := None, overrides := None);
      LockHolder();
      var existing := ByApplication(applicationId);
      if existing.Ok? {
        r := Resume(existing.value, attempts);
        return;
      }
      if existing.error != NotFound {
        return Err(existing.error);
      }
      r := Plan(applicationId, attempts, allowedPaths);
    }

    // The application has none: read, let the processor decide, and begin.
    method Plan(applicationId: string, attempts: nat, allowedPaths: seq<string>)
      returns (r: Result<Option<Record>, Failure>)
      requires Valid() && told.seen.None? && told.overrides.None?
      modifies this
      ensures Valid() && old(worlds) <= worlds && old(told).trouble <= told.trouble
      ensures r.Ok? && r.value.Some? ==> Stored(r.value.value) && r.value.value.applicationId == applicationId
      ensures r.Ok? && r.value.Some? ==> r.value.value.attempt == attempts + 1
      ensures r.Ok? && r.value.Some? ==> r.value.value.status == Applied || r.value.value.status == Submitting
      ensures r.Ok? && r.value.None? ==> SameStores(old(world), world) && writes == old(writes)
      ensures r.Ok? ==> told.seen.Some? && told.overrides.Some? && (r.value.None? <==> told.overrides == Some([]))
      ensures r.Ok? && r.value.Some? ==>
        Tailors(r.value.value, told.seen.value.state, allowedPaths, told.overrides.value)
      ensures Smooth(old(told), told) ==>
        told.seen.Some? && told.overrides.Some? &&
        told.seen.value.state == Snapshot(old(world).remote, SortBy(allowedPaths, Identity))
      ensures Smooth(old(told), told) && NoneOf(old(world), applicationId) ==>
        PlannedAs(old(world), world, applicationId, profileId, allowedPaths, told.overrides.value, r)
    {
      hide Valid, Sound, Tailors, PlanFits, Snapshot, PlannedChanges, Overridden;
      var observation := ReadProfileState(allowedPaths);
      if observation.Err? {
        return Err(observation.error);
      }
      var overrides := AskProcessor(observation.value);
      if overrides.None? {
        return Err(Rejected);
      }
      if |overrides.value| == 0 {
        // Also the outcome when the skill limit cannot be met.
        return Ok(None);
      }
      r := Begin(applicationId, attempts, allowedPaths, observation.value, overrides.value);
    }

    // The application has a saga already.
    method Resume(existing: Record, attempts: nat) returns (r: Result<Option<Record>, Failure>)
      requires Valid() && Stored(existing)
      modifies this
      ensures Valid() && old(worlds) <= worlds
      ensures r.Ok? ==> r.value.Some? && Stored(r.value.value) && SameInputs(existing, r.value.value)
      ensures r.Ok? ==> r.value.value.attempt == attempts + 1
      ensures r.Ok? ==> r.value.value.status == Applied || r.value.value.status == Submitting
      ensures NoNews(old(told), told)
      ensures Smooth(old(told), told) ==> ResumedAs(old(world), world, profileId, existing, attempts, r)
    {
      hide Valid, Sound, AppliedAs;
      if existing.attempt != attempts + 1 {
        return Err(Rejected);
      }
      var driven := DriveApply(existing);
      r := if driven.Ok? then Ok(Some(driven.value)) else Err(driven.error);
    }

    // A new saga.
    method Begin(applicationId: string, attempts: nat, allowedPaths: seq<string>, observation: Observation,
        overrides: seq<Override>) returns (r: Result<Option<Record>, Failure>)
      requires Valid() && overrides != []
      requires world.reading == Some(Reading(SortBy(allowedPaths, Identity), observation.state))
      modifies this
      ensures Valid() && old(worlds) <= worlds
      ensures r.Ok? ==> r.value.Some? && Stored(r.value.value) && r.value.value.applicationId == applicationId
      ensures r.Ok? ==> r.value.value.attempt == attempts + 1
      ensures r.Ok? ==> r.value.value.status == Applied || r.value.value.status == Submitting
      ensures r.Ok? ==> Tailors(r.value.value, observation.state, allowedPaths, overrides)
      ensures NoNews(old(told), told)
      ensures Smooth(old(told), told) && FromNothing(old(world), applicationId, allowedPaths, observation) ==>
        PlannedAs(old(world), world, applicationId, profileId, allowedPaths, overrides, r)
    {
      hide Valid, Sound, PlanFits, Snapshot, PlannedChanges, DeclaredPaths, HoldsValues, Undisturbed, ValidRecord;
      hide NothingForeign, Overridden;
      var planned := PlanRecord(applicationId, attempts, allowedPaths, observation, overrides);
      if planned.Err? {
        return Err(planned.error);
      }
      var stored := StoreRecord(planned.value);
      if stored.Err? {
        return Err(stored.error);
      }
      NotForeignToItself(planned.value, world.remote);
      var driven := DriveApply(stored.value);
      r := if driven.Ok? then Ok(Some(driven.value)) else Err(driven.error);
    }

    // The record a new saga starts from.
    method PlanRecord(applicationId: string, attempts: nat, allowedPaths: seq<string>, observation: Observation,
                      overrides: seq<Override>) returns (r: Result<Record, Failure>)
      modifies this`told
      ensures r.Ok? ==> ValidRecord(r.value) && r.value.status == Status.Planned && r.value.revision == 1
      ensures r.Ok? ==> r.value.applicationId == applicationId && r.value.attempt == attempts + 1
      ensures r.Ok? ==> r.value.profileId == profileId && r.value.applyProposalId == "" == r.value.restoreProposalId
      ensures r.Ok? ==> Tailors(r.value, observation.state, allowedPaths, overrides)
      ensures NoNews(old(told), told)
      ensures r.Err? ==> r.error == Rejected
      ensures Smooth(old(told), told) ==>
        (r.Ok? <==> PlanFits(applicationId, profileId, allowedPaths, observation.state, overrides))
    {
      hide Valid, ValidState, LeavesOf, DeclaredPaths, Admissible, HoldsValues, Undisturbed, Trim;
      if exists i | 0 <= i < |overrides| :: overrides[i].path !in allowedPaths {
        return Err(Rejected);
      }
      var tag := "application-tailoring:" + applicationId + ":baseline";
      NotBlank(tag, 'a');
      var baseline := NewProfileStateResource(tag, profileId, observation.state);
      if baseline.Err? {
        return Err(Rejected);
      }
      var target := WithOverrides(baseline.value, overrides);
      if target.Err? {
        return Err(Rejected);
      }
      var id: string := *;
      var now := Anything();
      if id == "" || now == 0 {
        Trouble();
      }
      var candidate := Record(id, applicationId, attempts + 1, profileId, SortBy(allowedPaths, Identity),
                              observation.state, target.value.state, observation.remoteRevision,
                              Status.Planned, "", "", "", 1, now, now);
      var ok := ValidateRecord(candidate);
      r := if ok then Ok(candidate) else Err(Rejected);
    }

    // The configured processor decides on overrides for what was read.
    method AskProcessor(observation: Observation) returns (r: Option<seq<Override>>)
      modifies this`told
      ensures r.Some? ==> told == old(told).(seen := Some(observation), overrides := r)
      ensures r.None? ==> NoNews(old(told), told) && told.trouble > old(told).trouble
    {
      hide Valid;
      if * {
        Trouble();
        return None;
      }
      var overrides: seq<Override> := *;
      told := told.(seen := Some(observation), overrides := Some(overrides));
      r := Some(overrides);
    }

    // The current values of a stored record's paths.
    method ReadStored(tailoring: Record) returns (r: Result<Observation, Failure>)
      requires Valid() && Stored(tailoring)
      modifies this
      ensures Valid() && old(worlds) <= worlds && writes == old(writes)
      ensures SameStores(old(world), world)
      ensures r.Ok? ==> r.value.profileId == profileId && r.value.digest == Digest(r.value.state)
      ensures r.Ok? ==> Saw(world, tailoring, r.value.state)
      ensures NoNews(old(told), told)
      ensures Smooth(old(told), told) ==>
        r.Ok? && world.remote == old(world).remote && r.value.state == Showing(tailoring) && ValidState(r.value.state)
    {
      hide Valid, Sound, Snapshot, ValidState;
      StoredPathsSorted(tailoring);
      r := ReadProfileState(tailoring.allowedPaths);
    }

    // Submission may begin only on the exact tailored snapshot.
    method BeginSubmit(applicationId: string) returns (r: Result<(), Failure>)
      requires Valid()
      modifies this
      ensures Valid() && old(worlds) <= worlds && writes == old(writes)
      ensures r.Ok? ==> forall id :: id in world.records && world.records[id].applicationId == applicationId ==>
                          world.records[id].status == Submitting || world.records[id].status == Restored
      ensures StaysUnderWay(old(world), world)
      ensures NoNews(old(told), told)
      ensures Smooth(old(told), told) && NoneOf(old(world), applicationId) ==> r.Ok?
      ensures Smooth(old(told), told) && UnderWay(old(world), applicationId) ==>
        SubmittedAs(world, old(world).records[old(world).active.value], r)
    {
      hide Valid, Sound, Snapshot;
      LockHolder();
      var found := ByApplication(applicationId);
      if found.Err? {
        return if found.error == NotFound then Ok(()) else Err(found.error);
      }
      var tailoring := found.value;
      match tailoring.status
      case Submitting =>
        OneUnderWay(tailoring.id);
        return Ok(());
      case RecoveryRequired => return Err(RecoveryNeeded);
      case Applied =>
        r := SubmitOnTailored(tailoring);
        if r.Ok? {
          OneUnderWay(tailoring.id);
        }
      case _ => return Err(Rejected);
    }

    method SubmitOnTailored(tailoring: Record) returns (r: Result<(), Failure>)
      requires Valid() && Stored(tailoring) && tailoring.status == Applied
      modifies this
      ensures Valid() && old(worlds) <= worlds && writes == old(writes)
      ensures r.Ok? ==> tailoring.id in world.records && world.records[tailoring.id].status == Submitting
      ensures StaysUnderWay(old(world), world)
      ensures NoNews(old(told), told)
      ensures Smooth(old(told), told) ==> SubmittedAs(world, tailoring, r)
    {
      hide Valid, Sound, ValidRecord, ValidState, Snapshot, StaysUnderWay;
      var observation := ReadStored(tailoring);
      ghost var now := world;
      StoresStay(old(world), now, now);
      if observation.Err? {
        return Err(observation.error);
      }
      if observation.value.digest != Digest(tailoring.tailored) {
        ReasonsSay();
        var failure := MarkRecovery(tailoring, DRIFTED_AFTER_APPLY);
        StoresStay(old(world), now, world);
        return Err(failure);
      }
      r := StoreSubmitting(tailoring);
      StoresStay(old(world), now, world);
    }

    // Persist that the submission begins.
    method StoreSubmitting(tailoring: Record) returns (r: Result<(), Failure>)
      requires Valid() && Stored(tailoring) && tailoring.status == Applied && Saw(world, tailoring, tailoring.tailored)
      modifies this
      ensures Valid() && old(worlds) <= worlds && writes == old(writes)
      ensures r.Ok? ==> tailoring.id in world.records && world.records[tailoring.id].status == Submitting
      ensures StaysUnderWay(old(world), world)
      ensures NoNews(old(told), told)
      ensures Smooth(old(told), told) ==> r.Ok? && world.remote == old(world).remote
    {
      hide Valid, Sound, ValidRecord;
      StoredIsValid(tailoring);
      var next, now := BeginSubmitting(tailoring);
      TransitionStaysValid(tailoring, "", OwnBaseline(tailoring), now);
      if next.None? {
        return Err(Rejected);
      }
      SubmitBegins(world, tailoring, now);
      var saved := SaveRecord(next.value, tailoring.revision);
      r := if saved then Ok(()) else Err(Unavailable);
    }

    // Persist that the baseline is being restored, on fresh evidence of the account.
    method StartRestore(tailoring: Record) returns (r: Result<Record, Failure>)
      requires Valid() && Stored(tailoring) && (tailoring.status == Applied || tailoring.status == Submitting)
      modifies this
      ensures Valid() && old(worlds) <= worlds && writes == old(writes)
      ensures r.Ok? ==> Stored(r.value) && r.value.status == Restoring && SameInputs(tailoring, r.value)
      ensures r.Ok? && old(Ours(tailoring)) ==> Ours(r.value)
      ensures NoNews(old(told), told)
      ensures Smooth(old(told), told) && tailoring.profileId == profileId ==>
        world.remote == old(world).remote &&
        if Showing(tailoring) == tailoring.tailored || Showing(tailoring) == tailoring.baseline
        then (r.Ok? <==> |PlannedChanges(Showing(tailoring), tailoring.baseline)| <= MAXIMUM_CHANGES) &&
             (r.Err? ==> r.error == Rejected) && (r.Ok? ==> PlannedFrom(r.value, Showing(tailoring)))
        else r == Err(RecoveryNeeded) && InRecovery(tailoring)
    {
      hide Valid, Sound, ValidRecord, PlannedChanges, PlanOf;
      var observation := ReadStored(tailoring);
      if observation.Err? {
        return Err(observation.error);
      }
      if observation.value.digest != Digest(tailoring.tailored) &&
        observation.value.digest != Digest(tailoring.baseline) {
        ReasonsSay();
        var failure := MarkRecovery(tailoring, DRIFTED_BEFORE_RESTORE);
        return Err(failure);
      }
      r := RestoreFrom(tailoring, observation.value);
    }

    method RestoreFrom(tailoring: Record, observation: Observation) returns (r: Result<Record, Failure>)
      requires Valid() && Stored(tailoring) && (tailoring.status == Applied || tailoring.status == Submitting)
      requires observation.state == tailoring.tailored || observation.state == tailoring.baseline
      requires Saw(world, tailoring, observation.state) && observation.digest == Digest(observation.state)
      modifies this
      ensures Valid() && old(worlds) <= worlds && writes == old(writes)
      ensures r.Ok? ==> Stored(r.value) && r.value.status == Restoring && SameInputs(tailoring, r.value)
      ensures r.Ok? ==> PlannedFrom(r.value, observation.state)
      ensures r.Ok? && old(Ours(tailoring)) ==> Ours(r.value)
      ensures NoNews(old(told), told)
      ensures Smooth(old(told), told) && observation.profileId == tailoring.profileId ==>
        (r.Ok? <==> |PlannedChanges(observation.state, tailoring.baseline)| <= MAXIMUM_CHANGES) &&
        (r.Err? ==> r.error == Rejected) && world.remote == old(world).remote
    {
      hide Valid, Sound, ValidRecord, PlannedChanges, PlanOf;
      PlansOf(tailoring);
      var proposal := ProposeRestore(tailoring, observation);
      if proposal.Err? {
        return Err(proposal.error);
      }
      r := StoreRestoring(tailoring, proposal.value, observation);
    }

    // Persist that this plan is being executed.
    method StoreRestoring(tailoring: Record, proposal: Proposal, observation: Observation)
      returns (r: Result<Record, Failure>)
      requires Valid() && Stored(tailoring) && (tailoring.status == Applied || tailoring.status == Submitting)
      requires observation.state == tailoring.tailored || observation.state == tailoring.baseline
      requires Saw(world, tailoring, observation.state) && observation.digest == Digest(observation.state)
      requires proposal.id != "" && proposal.id in world.proposals && world.proposals[proposal.id] == proposal
      requires PlanOf(proposal, observation.state, tailoring.baseline)
      modifies this
      ensures Valid() && old(worlds) <= worlds && writes == old(writes)
      ensures world.proposals == old(world).proposals
      ensures r.Ok? ==> Stored(r.value) && r.value.status == Restoring && SameInputs(tailoring, r.value)
      ensures r.Ok? ==>
        r.value.restoreProposalId == proposal.id && r.value.applyProposalId == tailoring.applyProposalId
      ensures NoNews(old(told), told)
      ensures Smooth(old(told), told) ==> r.Ok? && world.remote == old(world).remote
    {
      hide Valid, Sound, ValidRecord, PlanOf;
      StoredIsValid(tailoring);
      var next, now := BeginRestore(tailoring, proposal.id);
      TransitionStaysValid(tailoring, proposal.id, observation, now);
      if next.None? {
        return Err(Rejected);
      }
      RestoreBegins(world, tailoring, proposal.id, observation.state, now);
      var saved := SaveRecord(next.value, tailoring.revision);
      r := if saved then Ok(next.value) else Err(Unavailable);
    }

    // The stored restore plan was made from this state.
    ghost predicate PlannedFrom(r: Record, seen: Json)
      reads this`world
    {
      r.restoreProposalId in world.proposals && PlanOf(world.proposals[r.restoreProposalId], seen, r.baseline)
    }

    // The plan from what was read back to the baseline.
    method ProposeRestore(tailoring: Record, observation: Observation) returns (r: Result<Proposal, Failure>)
      requires Valid() && Stored(tailoring)
      requires observation.state == tailoring.tailored || observation.state == tailoring.baseline
      requires observation.digest == Digest(observation.state)
      modifies this
      ensures Valid() && old(worlds) <= worlds && writes == old(writes)
      ensures Stored(tailoring) && world.reading == old(world).reading
      ensures forall id :: id in old(world).proposals ==>
        id in world.proposals && world.proposals[id] == old(world).proposals[id]
      ensures r.Ok? ==> r.value.id in world.proposals && world.proposals[r.value.id] == r.value && r.value.id != ""
      ensures r.Ok? ==> PlanOf(r.value, observation.state, tailoring.baseline)
      ensures r.Ok? ==> r.value.profileId == tailoring.profileId
      ensures NoNews(old(told), told)
      ensures Smooth(old(told), told) && observation.profileId == tailoring.profileId ==>
        (r.Ok? <==> |PlannedChanges(observation.state, tailoring.baseline)| <= MAXIMUM_CHANGES) &&
        (r.Err? ==> r.error == Rejected) && world.remote == old(world).remote
    {
      hide Valid, Sound, PlannedChanges, ValidRecord, ValidState, LeavesOf, Trim;
      StoredIsValid(tailoring);
      OwnParts(tailoring, "application-tailoring:" + tailoring.id + ":restore");
      var resource := NewProfileStateResource("application-tailoring:" + tailoring.id + ":restore",
        tailoring.profileId, tailoring.baseline);
      if resource.Err? {
        return Err(Rejected);
      }
      r := CreateProposal(resource.value, observation);
      if r.Ok? {
        StoredProposalHasId(r.value);
      }
    }

    method FinishRestore(tailoring: Record) returns (r: Result<(), Failure>)
      requires Valid() && Stored(tailoring) && tailoring.status == Restoring
      modifies this
      ensures Valid() && old(worlds) <= worlds
      ensures r.Ok? ==>
        tailoring.id in world.records && world.records[tailoring.id].status == Restored &&
        world.active.None?
      ensures NoNews(old(told), told)
      ensures Smooth(old(told), told) && old(Ours(tailoring)) ==>
        tailoring.restoreProposalId in old(world).proposals &&
        var plan := old(world).proposals[tailoring.restoreProposalId];
        if plan.status == ProposalNoChanges ||
          NothingForeign(plan.observedDigest.of, tailoring.baseline, old(world).remote)
        then (r.Ok? <==> Showing(tailoring) == tailoring.baseline) && (r.Err? ==> r.error == Rejected)
        else r == Err(RecoveryNeeded) && InRecovery(tailoring)
    {
      hide Valid, Sound, ValidRecord, AllHold, Remaining;
      StoredIsValid(tailoring);
      PlansOf(tailoring);
      RestoringIsArmed(tailoring);
      var proposal := world.proposals[tailoring.restoreProposalId];
      var restored := Revert(tailoring, proposal);
      if restored.Err? {
        var failure := HandleMutationError(tailoring, restored.error);
        return Err(failure);
      }
      r := StoreRestored(tailoring, restored.value);
    }

    // Without anything to change a reading will do.
    method Revert(tailoring: Record, proposal: Proposal) returns (r: Result<Observation, Failure>)
      requires Valid() && Stored(tailoring) && Armed(world, proposal) && RestorePlan(proposal, tailoring)
      requires tailoring.allowedPaths == DeclaredPaths(tailoring.baseline)
      modifies this
      ensures Valid() && old(worlds) <= worlds
      ensures SameStores(old(world), world)
      ensures r.Ok? ==> r.value.profileId == profileId && r.value.digest == Digest(r.value.state)
      ensures r.Ok? ==> Saw(world, tailoring, r.value.state)
      ensures NoNews(old(told), told)
      ensures Smooth(old(told), told) && proposal.profileId == profileId ==>
        (r.Ok? <==> (proposal.status == ProposalNoChanges ||
                     NothingForeign(proposal.observedDigest.of, tailoring.baseline, old(world).remote))) &&
        (r.Err? ==> r.error == Conflicted) && (r.Ok? ==> r.value.state == Showing(tailoring))
    {
      hide Valid, Sound, ValidRecord, AllHold, Remaining;
      StoredProposalHasId(proposal);
      StoredPathsSorted(tailoring);
      SettleableExactly(proposal, proposal.observedDigest.of, tailoring.baseline, world.remote);
      if proposal.status == ProposalNoChanges {
        r := ReadProfileState(tailoring.allowedPaths);
      } else {
        r := ApplyProposal(proposal);
      }
    }

    // Persist that the account was read as it was.
    method StoreRestored(tailoring: Record, observation: Observation) returns (r: Result<(), Failure>)
      requires Valid() && Stored(tailoring) && tailoring.status == Restoring
      requires Saw(world, tailoring, observation.state) && observation.digest == Digest(observation.state)
      modifies this
      ensures Valid() && old(worlds) <= worlds
      ensures r.Ok? ==>
        tailoring.id in world.records && world.records[tailoring.id].status == Restored &&
        world.active.None?
      ensures NoNews(old(told), told)
      ensures Smooth(old(told), told) ==>
        (r.Ok? <==> observation.profileId == tailoring.profileId && observation.state == tailoring.baseline) &&
        (r.Err? ==> r.error == Rejected) && world.remote == old(world).remote
    {
      hide Valid, Sound, ValidRecord;
      StoredIsValid(tailoring);
      var next, now := RecordRestored(tailoring, observation);
      TransitionStaysValid(tailoring, "", observation, now);
      if next.None? {
        return Err(Rejected);
      }
      RestoreRecorded(world, tailoring, now);
      var saved := SaveRecord(next.value, tailoring.revision);
      r := if saved then Ok(()) else Err(Unavailable);
    }

    // A successful Restore leaves no saga of the application under way.
    method Restore(applicationId: string) returns (r: Result<(), Failure>)
      requires Valid()
      modifies this
      ensures Valid() && old(worlds) <= worlds
      ensures r.Ok? ==> forall id :: id in world.records && world.records[id].applicationId == applicationId ==>
                          world.records[id].status == Restored
      ensures NoNews(old(told), told)
      ensures Smooth(old(told), told) && !UnderWay(old(world), applicationId) ==> r.Ok?
      ensures Smooth(old(told), told) && UnderWay(old(world), applicationId) ==>
        EndedAs(old(world), world, profileId, old(world).records[old(world).active.value], r)
    {
      hide Valid, Sound, RestoredAs, OursIn;
      LockHolder();
      var found := ByApplication(applicationId);
      if found.Err? {
        return if found.error == NotFound then Ok(()) else Err(found.error);
      }
      var tailoring := found.value;
      if tailoring.status == RecoveryRequired {
        return Err(RecoveryNeeded);
      }
      if tailoring.status == Restored {
        return Ok(());
      }
      if tailoring.status == Status.Planned || tailoring.status == Applying {
        return Err(Rejected);
      }
      r := DriveRestore(tailoring);
      if r.Ok? {
        NothingUnderWay();
      }
    }

    method DriveRestore(tailoring: Record) returns (r: Result<(), Failure>)
      requires Valid() && Stored(tailoring)
      requires tailoring.status == Applied || tailoring.status == Submitting || tailoring.status == Restoring
      modifies this
      ensures Valid() && old(worlds) <= worlds
      ensures r.Ok? ==> world.active.None?
      ensures NoNews(old(told), told)
      ensures Smooth(old(told), told) && old(Ours(tailoring)) ==>
        RestoredAs(old(world), world, tailoring, r)
    {
      hide Valid, Sound;
      PlansOf(tailoring);
      if tailoring.status == Restoring {
        r := FinishRestore(tailoring);
        return;
      }
      var started := StartRestore(tailoring);
      if started.Err? {
        return Err(started.error);
      }
      ghost var seen := Showing(tailoring);
      NothingForeignNow(seen, tailoring.baseline, world.remote);
      r := FinishRestore(started.value);
    }
  }
}
