// The temporary-resume saga record of core/application_tailoring.go: what it
// stores, when it is valid, and its transitions.
module Tailoring {
  import opened Wrappers
  import opened Ordering
  import opened Sorting
  import opened JsonTree
  import opened Leaves
  import opened ProfileState
  import opened Text

  datatype Status = Planned | Applying | Applied | Submitting | Restoring | Restored | RecoveryRequired

  // One temporary profile mutation. Proposal ids and the recovery reason are
  // empty until they are set.
  datatype Record = Record(
    id: string, applicationId: string, attempt: nat, profileId: string,
    allowedPaths: seq<string>, baseline: Json, tailored: Json, baselineRevision: string,
    status: Status, applyProposalId: string, restoreProposalId: string, recoveryReason: string,
    revision: nat, createdAt: nat, updatedAt: nat)

  // The part of a record no transition changes.
  ghost predicate SameInputs(a: Record, b: Record) {
    a.id == b.id && a.applicationId == b.applicationId && a.attempt == b.attempt && a.profileId == b.profileId &&
    a.allowedPaths == b.allowedPaths && a.baseline == b.baseline && a.tailored == b.tailored &&
    a.baselineRevision == b.baselineRevision && a.createdAt == b.createdAt
  }

  // Both snapshots declare exactly the allowed paths, and differ somewhere.
  ghost predicate ValidPaths(r: Record) {
    r.allowedPaths != [] && ExactlyDeclared(r.baseline, r.tailored, r.allowedPaths) &&
    Differ(r.baseline, r.tailored, r.allowedPaths)
  }

  // Some of the paths holds different values in the two snapshots.
  ghost predicate Differ(baseline: Json, tailored: Json, paths: seq<string>) {
    paths != [] &&
    (PointerValue(baseline, paths[|paths| - 1]) != PointerValue(tailored, paths[|paths| - 1]) ||
     Differ(baseline, tailored, paths[..|paths| - 1]))
  }

  predicate ValidExecution(r: Record) {
    match r.status
    case Planned => r.applyProposalId == "" && r.restoreProposalId == ""
    case Applying => r.applyProposalId != "" && r.restoreProposalId == ""
    case Applied => r.applyProposalId != "" && r.restoreProposalId == ""
    case Submitting => r.applyProposalId != "" && r.restoreProposalId == ""
    case Restoring => r.applyProposalId != "" && r.restoreProposalId != ""
    case Restored => r.applyProposalId != "" && r.restoreProposalId != ""
    case RecoveryRequired => !Blank(r.recoveryReason)
  }

  ghost predicate ValidRecord(r: Record) {
    r.id != "" && r.applicationId != "" && r.attempt >= 1 && r.profileId != "" &&
    ValidState(r.baseline) && ValidState(r.tailored) && r.baseline != r.tailored &&
    ValidPaths(r) && ValidExecution(r) && (r.status != RecoveryRequired ==> r.recoveryReason == "") &&
    r.revision > 0 && r.createdAt > 0 && r.updatedAt >= r.createdAt
  }

  // A declared path of an object is a non-empty pointer above its predecessor.
  lemma DeclaredPathShape(t: Json, i: nat)
    requires t.Object? && i < |DeclaredPaths(t)|
    ensures var path := DeclaredPaths(t)[i];
      path != "" && path[0] == '/' && Less(if i == 0 then "" else DeclaredPaths(t)[i - 1], path) &&
      PointerValue(t, path).Some?
  {
    var paths := DeclaredPaths(t);
    DeclaredPathsExact(t);
    var p := LeafOfPointer(t, paths[i]);
    assert p != [];
    if i > 0 {
      assert Less(Identity(paths[i - 1]), Identity(paths[i]));
    }
  }

  lemma AllowedPathShape(baseline: Json, tailored: Json, paths: seq<string>, i: nat)
    requires baseline.Object? && tailored.Object? && i < |paths|
    ensures ExactlyDeclared(baseline, tailored, paths) ==>
      (paths[i] != "" && paths[i][0] == '/' && Less(if i == 0 then "" else paths[i - 1], paths[i]) &&
       PointerValue(baseline, paths[i]).Some? && PointerValue(tailored, paths[i]).Some?)
  {
    if ExactlyDeclared(baseline, tailored, paths) {
      DeclaredPathShape(baseline, i);
      DeclaredPathShape(tailored, i);
    }
  }

  lemma DifferStep(baseline: Json, tailored: Json, paths: seq<string>, i: nat)
    requires i < |paths|
    ensures Differ(baseline, tailored, paths[..i + 1]) <==>
      Differ(baseline, tailored, paths[..i]) || PointerValue(baseline, paths[i]) != PointerValue(tailored, paths[i])
  {
    assert paths[..i + 1][..i] == paths[..i];
  }

  ghost predicate ExactlyDeclared(baseline: Json, tailored: Json, paths: seq<string>) {
    paths == DeclaredPaths(baseline) && paths == DeclaredPaths(tailored)
  }

  // The loop over the allowed paths: whether any of them changes, or None when the
  // paths are unsorted, no pointers, or missing from a snapshot.
  method ComparePaths(baseline: Json, tailored: Json, paths: seq<string>) returns (differ: Option<bool>)
    requires baseline.Object? && tailored.Object?
    ensures differ.None? ==> !ExactlyDeclared(baseline, tailored, paths)
    ensures differ.Some? ==> differ.value == Differ(baseline, tailored, paths)
  {
    var previous := "";
    var changed := false;
    for i := 0 to |paths|
      invariant previous == if i == 0 then "" else paths[i - 1]
      invariant changed <==> Differ(baseline, tailored, paths[..i])
    {
      var path := paths[i];
      AllowedPathShape(baseline, tailored, paths, i);
      DifferStep(baseline, tailored, paths, i);
      if path == "" || path[0] != '/' || !Less(previous, path) {
        return None;
      }
      previous := path;
      var before := JsonPointerValue(baseline, path);
      var after := JsonPointerValue(tailored, path);
      if before.None? || after.None? {
        return None;
      }
      if before != after {
        changed := true;
      }
    }
    assert paths[..|paths|] == paths;
    differ := Some(changed);
  }

  // validateApplicationTailoringPaths
  method ValidatePaths(baseline: Json, tailored: Json, paths: seq<string>) returns (ok: bool)
    requires baseline.Object? && tailored.Object?
    ensures ok <==> paths != [] && ExactlyDeclared(baseline, tailored, paths) && Differ(baseline, tailored, paths)
  {
    if |paths| == 0 {
      return false;
    }
    var differ := ComparePaths(baseline, tailored, paths);
    if differ.None? {
      return false;
    }
    var baselinePaths := DeclaredPathsOf(baseline);
    var tailoredPaths := DeclaredPathsOf(tailored);
    if paths != baselinePaths || paths != tailoredPaths {
      return false;
    }
    ok := differ.value;
  }

  // ApplicationTailoring.Validate, in the order of the source.
  method ValidateRecord(r: Record) returns (ok: bool)
    ensures ok <==> ValidRecord(r)
  {
    if r.id == "" || r.applicationId == "" || r.attempt < 1 || r.profileId == "" {
      return false;
    }
    var baselineLeaves := CanonicalProfileState(r.baseline);
    if baselineLeaves.None? || baselineLeaves.value == 0 {
      assert !ValidRecord(r) by {
        NoLeavesNoPaths(r.baseline);
      }
      return false;
    }
    var tailoredLeaves := CanonicalProfileState(r.tailored);
    if tailoredLeaves.None? || tailoredLeaves.value == 0 {
      assert !ValidRecord(r) by {
        NoLeavesNoPaths(r.tailored);
      }
      return false;
    }
    if r.baseline == r.tailored {
      return false;
    }
    var pathsValid := ValidatePaths(r.baseline, r.tailored, r.allowedPaths);
    if !pathsValid || !ValidExecution(r) {
      return false;
    }
    if r.status != RecoveryRequired && r.recoveryReason != "" {
      return false;
    }
    ok := r.revision > 0 && r.createdAt > 0 && r.updatedAt >= r.createdAt;
  }

  lemma NoLeavesNoPaths(t: Json)
    ensures LeavesOf(t) == [] <==> DeclaredPaths(t) == []
  {
    SameMultisetSameElements(DeclaredPaths(t), Pointers([], LeavesOf(t)));
  }

  // ---- transitions ----

  // The record after one transition; the status and proposal fields say which.
  function Advanced(r: Record, now: nat): Record {
    r.(revision := r.revision + 1, updatedAt := now)
  }

  predicate ClockAllows(r: Record, now: nat) {
    now > 0 && now >= r.updatedAt
  }

  predicate CanBeginApply(r: Record, proposalId: string, now: nat) {
    r.status == Status.Planned && proposalId != "" && ClockAllows(r, now)
  }

  function BegunApply(r: Record, proposalId: string, now: nat): Record {
    Advanced(r, now).(applyProposalId := proposalId, status := Applying)
  }

  predicate CanRecordApplied(r: Record, observation: Observation, now: nat) {
    r.status == Applying && observation.profileId == r.profileId && observation.digest == Digest(r.tailored) &&
    ClockAllows(r, now)
  }

  predicate CanBeginSubmit(r: Record, now: nat) {
    r.status == Applied && ClockAllows(r, now)
  }

  predicate CanBeginRestore(r: Record, proposalId: string, now: nat) {
    (r.status == Applied || r.status == Submitting) && proposalId != "" && ClockAllows(r, now)
  }

  function BegunRestore(r: Record, proposalId: string, now: nat): Record {
    Advanced(r, now).(restoreProposalId := proposalId, status := Restoring)
  }

  predicate CanRecordRestored(r: Record, observation: Observation, now: nat) {
    r.status == Restoring && observation.profileId == r.profileId && observation.digest == Digest(r.baseline) &&
    ClockAllows(r, now)
  }

  predicate CanRequireRecovery(r: Record, reason: string, now: nat) {
    r.status != Restored && !Blank(reason) && ClockAllows(r, now)
  }

  function RecoveryDemanded(r: Record, reason: string, now: nat): Record {
    Advanced(r, now).(status := RecoveryRequired, recoveryReason := Trim(reason))
  }

  // What each transition changes, and nothing else: the status, the plan it begins with or
  // the reason it ends for, one revision and the time.
  lemma TransitionsTold(r: Record, proposalId: string, reason: string, now: nat)
    ensures BegunApply(r, proposalId, now) ==
      r.(status := Applying, applyProposalId := proposalId, revision := r.revision + 1, updatedAt := now)
    ensures BegunRestore(r, proposalId, now) ==
      r.(status := Restoring, restoreProposalId := proposalId, revision := r.revision + 1, updatedAt := now)
    ensures RecoveryDemanded(r, reason, now) ==
      r.(status := RecoveryRequired, recoveryReason := Trim(reason), revision := r.revision + 1, updatedAt := now)
    ensures Advanced(r, now) == r.(revision := r.revision + 1, updatedAt := now)
    ensures ClockAllows(r, now) <==> now > 0 && now >= r.updatedAt
  {
    hide Trim;
  }

  // No transition allowed from a valid record fails its closing validation.
  lemma TransitionsStayValid(r: Record, proposalId: string, reason: string, observation: Observation, now: nat)
    requires ValidRecord(r)
    ensures CanBeginApply(r, proposalId, now) ==> ValidRecord(BegunApply(r, proposalId, now))
    ensures CanRecordApplied(r, observation, now) ==> ValidRecord(Advanced(r, now).(status := Applied))
    ensures CanBeginSubmit(r, now) ==> ValidRecord(Advanced(r, now).(status := Submitting))
    ensures CanBeginRestore(r, proposalId, now) ==> ValidRecord(BegunRestore(r, proposalId, now))
    ensures CanRecordRestored(r, observation, now) ==> ValidRecord(Advanced(r, now).(status := Restored))
    ensures CanRequireRecovery(r, reason, now) ==> ValidRecord(RecoveryDemanded(r, reason, now))
  {
    TrimTwice(reason);
    hide Trim, DeclaredPaths, ValidState;
  }

  // The copy a worker holds while it drives a saga. Each method is one transition;
  // after a failed one the copy is discarded.
  class Draft {
    var record: Record

    constructor (stored: Record)
      ensures record == stored
    {
      record := stored;
    }

    method BeginApply(proposalId: string, now: nat) returns (ok: bool)
      modifies this
      ensures ok <==>
        CanBeginApply(old(record), proposalId, now) &&
        ValidRecord(BegunApply(old(record), proposalId, now))
      ensures ok ==> record == BegunApply(old(record), proposalId, now)
    {
      if record.status != Status.Planned || proposalId == "" || !ClockAllows(record, now) {
        return false;
      }
      record := Advanced(record, now);
      record := record.(applyProposalId := proposalId);
      record := record.(status := Applying);
      ok := ValidateRecord(record);
    }

    method RecordApplied(observation: Observation, now: nat) returns (ok: bool)
      modifies this
      ensures ok <==>
        CanRecordApplied(old(record), observation, now) && ValidRecord(Advanced(old(record), now).(status := Applied))
      ensures ok ==> record == Advanced(old(record), now).(status := Applied)
    {
      if record.status != Applying {
        return false;
      }
      if observation.profileId != record.profileId || observation.digest != Digest(record.tailored) {
        return false;
      }
      if !ClockAllows(record, now) {
        return false;
      }
      record := Advanced(record, now);
      record := record.(status := Applied);
      ok := ValidateRecord(record);
    }

    method BeginSubmit(now: nat) returns (ok: bool)
      modifies this
      ensures ok <==> CanBeginSubmit(old(record), now) && ValidRecord(Advanced(old(record), now).(status := Submitting))
      ensures ok ==> record == Advanced(old(record), now).(status := Submitting)
    {
      if record.status != Applied || !ClockAllows(record, now) {
        return false;
      }
      record := Advanced(record, now);
      record := record.(status := Submitting);
      ok := ValidateRecord(record);
    }

    method BeginRestore(proposalId: string, now: nat) returns (ok: bool)
      modifies this
      ensures ok <==>
        CanBeginRestore(old(record), proposalId, now) &&
        ValidRecord(BegunRestore(old(record), proposalId, now))
      ensures ok ==> record == BegunRestore(old(record), proposalId, now)
    {
      if (record.status != Applied && record.status != Submitting) || proposalId == "" || !ClockAllows(record, now) {
        return false;
      }
      record := Advanced(record, now);
      record := record.(restoreProposalId := proposalId);
      record := record.(status := Restoring);
      ok := ValidateRecord(record);
    }

    method RecordRestored(observation: Observation, now: nat) returns (ok: bool)
      modifies this
      ensures ok <==>
        CanRecordRestored(old(record), observation, now) && ValidRecord(Advanced(old(record), now).(status := Restored))
      ensures ok ==> record == Advanced(old(record), now).(status := Restored)
    {
      if record.status != Restoring {
        return false;
      }
      if observation.profileId != record.profileId || observation.digest != Digest(record.baseline) {
        return false;
      }
      if !ClockAllows(record, now) {
        return false;
      }
      record := Advanced(record, now);
      record := record.(status := Restored);
      ok := ValidateRecord(record);
    }

    method RequireRecovery(reason: string, now: nat) returns (ok: bool)
      modifies this
      ensures ok <==>
        CanRequireRecovery(old(record), reason, now) &&
        ValidRecord(RecoveryDemanded(old(record), reason, now))
      ensures ok ==> record == RecoveryDemanded(old(record), reason, now)
    {
      if record.status == Restored {
        return false;
      }
      var trimmed := Trim(reason);
      if trimmed == "" || !ClockAllows(record, now) {
        return false;
      }
      record := Advanced(record, now);
      record := record.(status := RecoveryRequired);
      record := record.(recoveryReason := trimmed);
      ok := ValidateRecord(record);
    }
  }
}
