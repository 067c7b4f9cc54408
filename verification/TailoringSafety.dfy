// What a run of the saga makes of the account, whatever third parties do beside it: at every
// point the account is the one third parties alone would have made of it, but for the
// fields of the saga under way.
module TailoringSafety {
  import opened Wrappers
  import opened JsonPointer
  import opened JsonTree
  import opened Leaves
  import opened ProfileState
  import opened RetrySafety
  import opened Remote
  import opened Tailoring
  import opened TailoringRuns

  // An active saga has touched the account at its allowed paths only.
  ghost predicate Contained(r: Record, remote: Json, original: Json) {
    SameOutside(remote, original, r.allowedPaths) &&
    (forall i :: 0 <= i < |r.allowedPaths| ==> BaselineOrTailored(r, remote, r.allowedPaths[i])) &&
    (r.status == Status.Planned ==> remote == original) &&
    (r.status == Applied || r.status == Submitting ==> ShowsTailored(r, remote))
  }

  ghost predicate ShowsTailored(r: Record, remote: Json) {
    forall i :: 0 <= i < |r.allowedPaths| ==>
      PointerValue(remote, r.allowedPaths[i]) == PointerValue(r.tailored, r.allowedPaths[i])
  }

  ghost predicate TrueReading(w: World) {
    w.reading.Some? ==> w.reading.value.state == Snapshot(w.remote, w.reading.value.paths)
  }

  // What the worker last read of the record's paths is still there.
  ghost predicate TrueFor(w: World, r: Record) {
    w.reading.Some? && w.reading.value.paths == r.allowedPaths ==>
      w.reading.value.state == Snapshot(w.remote, r.allowedPaths)
  }

  // The record under way took the original account as its baseline and has changed it at
  // its own paths alone; with none under way it is the original account.
  ghost predicate Safe(w: World, original: Json) {
    match w.active
    case None => w.remote == original
    case Some(id) =>
      id in w.records && Contained(w.records[id], w.remote, original) &&
      w.records[id].baseline == Snapshot(original, w.records[id].allowedPaths) && TrueFor(w, w.records[id])
  }

  ghost predicate HasLeaf(t: Json, path: string) {
    PointerValue(t, path).Some? && !PointerValue(t, path).value.Object?
  }

  // A valid record's paths show their baseline values in the original account.
  lemma BaselineValues(r: Record, original: Json, i: nat)
    requires ValidRecord(r) && r.baseline == Snapshot(original, r.allowedPaths) && i < |r.allowedPaths|
    ensures SeparatePaths(r.allowedPaths)
    ensures PointerValue(original, r.allowedPaths[i]) == PointerValue(r.baseline, r.allowedPaths[i])
    ensures HasLeaf(r.baseline, r.allowedPaths[i]) && HasLeaf(r.tailored, r.allowedPaths[i])
  {
    DeclaredPathsSeparate(r.baseline);
    SnapshotShows(original, r.allowedPaths, i);
    var p := LeafOfPointer(r.baseline, r.allowedPaths[i]);
    var q := LeafOfPointer(r.tailored, r.allowedPaths[i]);
  }

  // What a reading of the current account says about one allowed path.
  lemma ReadingShows(w: World, r: Record, state: Json, i: nat)
    requires ValidRecord(r) && Saw(w, r, state) && i < |r.allowedPaths| && TrueFor(w, r)
    ensures PointerValue(w.remote, r.allowedPaths[i]) == PointerValue(state, r.allowedPaths[i])
  {
    DeclaredPathsSeparate(r.baseline);
    SnapshotShows(w.remote, r.allowedPaths, i);
  }

  lemma ContainedStart(r: Record, original: Json)
    requires ValidRecord(r) && r.status == Status.Planned && r.baseline == Snapshot(original, r.allowedPaths)
    ensures Contained(r, original, original)
  {
    forall i | 0 <= i < |r.allowedPaths| ensures BaselineOrTailored(r, original, r.allowedPaths[i]) {
      BaselineValues(r, original, i);
    }
  }

  // A write under one of the record's plans keeps the account contained.
  lemma ContainedWrite(r: Record, p: Proposal, change: Change, before: Json, after: Json, original: Json)
    requires ValidRecord(r) && r.baseline == Snapshot(original, r.allowedPaths) && Contained(r, before, original)
    requires r.status == Applying || r.status == Restoring
    requires Segments(change.path).Some?
    requires Written(before, after, Segments(change.path).value, AfterAt(p.desired, change.path))
    requires WritesOwnValue(r, before, after, change.path)
    ensures Contained(r, after, original)
  {
    var at := Segments(change.path).value;
    var k :| 0 <= k < |r.allowedPaths| && r.allowedPaths[k] == change.path;
    BaselineValues(r, original, k);
    forall q | Outside(r.allowedPaths, q) ensures ShapeAt(after, q) == ShapeAt(original, q) {
      assert !IsPrefix(Segments(r.allowedPaths[k]).value, q);
      if IsPrefix(q, at) {
        BranchAboveLeaf(original, at, q);
      }
      WriteKeepsShapes(before, after, at, AfterAt(p.desired, change.path), q);
    }
    forall i | 0 <= i < |r.allowedPaths| ensures BaselineOrTailored(r, after, r.allowedPaths[i]) {
      OneOfBoth(r, before, after, change.path, i);
    }
  }

  lemma OneOfBoth(r: Record, before: Json, after: Json, path: string, i: nat)
    requires i < |r.allowedPaths| && WritesOwnValue(r, before, after, path)
    requires BaselineOrTailored(r, before, r.allowedPaths[i])
    ensures BaselineOrTailored(r, after, r.allowedPaths[i])
  {
    assert r.allowedPaths[i] in r.allowedPaths;
  }

  lemma ContainedSave(w: World, before: Record, after: Record, original: Json)
    requires ValidRecord(before) && SaveAllowed(w, before, after)
    requires Contained(before, w.remote, original) && TrueFor(w, before)
    ensures Contained(after, w.remote, original)
  {
    if after.status == Applied || after.status == Submitting {
      forall i | 0 <= i < |after.allowedPaths|
        ensures PointerValue(w.remote, after.allowedPaths[i]) == PointerValue(after.tailored, after.allowedPaths[i]) {
        ReadingShows(w, before, before.tailored, i);
      }
    }
    forall i | 0 <= i < |after.allowedPaths| ensures BaselineOrTailored(after, w.remote, after.allowedPaths[i]) {
      assert BaselineOrTailored(before, w.remote, before.allowedPaths[i]);
    }
  }

  // Restoring ends only on a reading equal to the baseline, and then the whole
  // account is back to what it was.
  lemma RestoredIsOriginal(w: World, before: Record, after: Record, original: Json)
    requires ValidRecord(before) && SaveAllowed(w, before, after) && after.status == Restored
    requires Contained(before, w.remote, original) && before.baseline == Snapshot(original, before.allowedPaths)
    requires TrueFor(w, before)
    ensures w.remote == original
  {
    DeclaredPathsSeparate(before.baseline);
    forall i | 0 <= i < |before.allowedPaths|
      ensures PointerValue(w.remote, before.allowedPaths[i]) == PointerValue(original, before.allowedPaths[i])
      ensures PointerValue(w.remote, before.allowedPaths[i]).Some?
    {
      ReadingShows(w, before, before.baseline, i);
      BaselineValues(before, original, i);
    }
    SameEverywhere(w.remote, original, before.allowedPaths);
  }

  lemma SafeSave(w: World, w': World, r: Record, original: Json)
    requires Sound(w) && Next(w, w', Save(r)) && Safe(w, original)
    ensures Safe(w', original)
  {
    var before := w.records[r.id];
    SaveSource(w, before, r);
    OneActiveSave(w, w', r);
    assert SoundRecord(w.proposals, before);
    assert w'.remote == w.remote && w'.reading == w.reading;
    hide Contained, SoundRecord;
    if r.status == Restored {
      RestoredIsOriginal(w, before, r, original);
    } else {
      ContainedSave(w, before, r, original);
    }
  }

  // A new saga is safe exactly when the reading it takes as its baseline still stands.
  lemma CreatedSafelyExactly(w: World, w': World, r: Record, original: Json)
    requires Sound(w) && Next(w, w', Create(r)) && Safe(w, original)
    ensures Safe(w', original) <==> TrueReading(w)
  {
    if TrueReading(w) {
      ContainedStart(r, original);
    }
  }

  lemma SafeWrite(w: World, w': World, s: Step, original: Json)
    requires Sound(w) && Next(w, w', s) && s.Write? && Safe(w, original)
    ensures Safe(w', original)
  {
    var r := w.records[w.active.value];
    WriteEffect(w, w', s);
    assert SoundRecord(w.proposals, r);
    ContainedWrite(r, w.proposals[s.proposalId], s.change, w.remote, w'.remote, original);
  }

  lemma SafeStep(w: World, w': World, s: Step, original: Json)
    requires Sound(w) && Next(w, w', s) && Safe(w, original) && !s.ThirdPartyEdit?
    requires s.Create? ==> TrueReading(w)
    ensures Safe(w', original)
  {
    match s
    case Create(r) => CreatedSafelyExactly(w, w', r, original);
    case Save(r) => SafeSave(w, w', r, original);
    case Write(_, _) => SafeWrite(w, w', s, original);
    case _ =>
  }

  // ---- third parties beside the saga ----

  // An edit while a saga is under way spares its paths.
  ghost predicate Beside(w: World, w': World) {
    w.active.Some? && w.active.value in w.records ==>
      SparesAll(w.remote, w'.remote, w.records[w.active.value].allowedPaths)
  }

  // Third parties edit what they like while no saga is under way and beside its paths while
  // one is, and no record is stored on a reading they have overtaken.
  ghost predicate Considerate(worlds: seq<World>, steps: seq<Step>)
    requires |worlds| == |steps| + 1
  {
    forall k :: 0 <= k < |steps| ==>
      (steps[k].ThirdPartyEdit? ==> Beside(worlds[k], worlds[k + 1])) &&
      (steps[k].Create? ==> TrueReading(worlds[k]))
  }

  // The account as third parties alone would have it: what they leave behind, with the
  // baseline of the saga under way put back.
  ghost function Theirs(worlds: seq<World>, steps: seq<Step>, i: nat): Json
    requires |worlds| == |steps| + 1 && i < |worlds|
  {
    if i == 0 then worlds[0].remote
    else if steps[i - 1].ThirdPartyEdit? then AfterEdit(worlds[i - 1], worlds[i])
    else Theirs(worlds, steps, i - 1)
  }

  ghost function AfterEdit(w: World, w': World): Json {
    if w.active.Some? && w.active.value in w.records then
      var r := w.records[w.active.value];
      PutBack(w'.remote, r.baseline, r.allowedPaths)
    else w'.remote
  }

  // On the way to every allowed path the account has objects, whatever the saga did.
  lemma PathsStayRooted(r: Record, remote: Json, original: Json)
    requires ValidRecord(r) && r.baseline == Snapshot(original, r.allowedPaths) && Contained(r, remote, original)
    ensures Rooted(remote, r.allowedPaths)
  {
    var paths := r.allowedPaths;
    forall i, q | 0 <= i < |paths| && Above(q, paths[i]) ensures ShapeAt(remote, q) == Branch {
      BaselineValues(r, original, i);
      BranchAboveLeaf(original, Segments(paths[i]).value, q);
      AbovePathIsOutside(paths, i, q);
    }
  }

  lemma AbovePathIsOutside(paths: seq<string>, i: nat, q: Path)
    requires SeparatePaths(paths) && i < |paths| && IsPrefix(q, Segments(paths[i]).value)
    requires q != Segments(paths[i]).value
    ensures Outside(paths, q)
  {
    var p := Segments(paths[i]).value;
    forall j | 0 <= j < |paths| ensures !IsPrefix(Segments(paths[j]).value, q) {
      var other := Segments(paths[j]).value;
      if IsPrefix(other, q) {
        assert p[..|other|] == q[..|other|] == other;
        assert IsPrefix(other, p);
      }
    }
  }

  lemma SparedRoots(r: Record, before: Json, after: Json)
    requires Rooted(before, r.allowedPaths) && SparesAll(before, after, r.allowedPaths)
    ensures Rooted(after, r.allowedPaths)
  {
    var paths := r.allowedPaths;
    forall i, q | 0 <= i < |paths| && Above(q, paths[i]) ensures ShapeAt(after, q) == Branch {
      assert Spares(before, after, Segments(paths[i]).value);
      assert ShapeAt(before, q) == Branch;
    }
  }

  lemma SparedValues(r: Record, before: Json, after: Json, original: Json, i: nat)
    requires ValidRecord(r) && r.baseline == Snapshot(original, r.allowedPaths) && i < |r.allowedPaths|
    requires BaselineOrTailored(r, before, r.allowedPaths[i]) && SparesAll(before, after, r.allowedPaths)
    ensures PointerValue(after, r.allowedPaths[i]) == PointerValue(before, r.allowedPaths[i])
  {
    BaselineValues(r, original, i);
    hide ValidRecord, SeparatePaths, Spares;
    SparedValue(before, after, r.allowedPaths[i]);
  }

  lemma SparedPaths(r: Record, before: Json, after: Json, original: Json)
    requires ValidRecord(r) && r.baseline == Snapshot(original, r.allowedPaths) && Contained(r, before, original)
    requires SparesAll(before, after, r.allowedPaths)
    ensures Rooted(after, r.allowedPaths)
    ensures forall i :: 0 <= i < |r.allowedPaths| ==>
      PointerValue(after, r.allowedPaths[i]) == PointerValue(before, r.allowedPaths[i])
  {
    PathsStayRooted(r, before, original);
    SparedRoots(r, before, after);
    hide ValidRecord, BaselineOrTailored, SparesAll, SameOutside;
    forall i | 0 <= i < |r.allowedPaths|
      ensures PointerValue(after, r.allowedPaths[i]) == PointerValue(before, r.allowedPaths[i])
    {
      assert BaselineOrTailored(r, before, r.allowedPaths[i]);
      SparedValues(r, before, after, original, i);
    }
  }

  // An edit beside the saga: the account stays contained, now in what third parties have
  // made of the original.
  lemma ContainedEdit(r: Record, before: Json, after: Json, original: Json)
    requires ValidRecord(r) && r.baseline == Snapshot(original, r.allowedPaths) && Contained(r, before, original)
    requires SparesAll(before, after, r.allowedPaths)
    ensures Contained(r, after, PutBack(after, r.baseline, r.allowedPaths))
    ensures r.baseline == Snapshot(PutBack(after, r.baseline, r.allowedPaths), r.allowedPaths)
    ensures Snapshot(after, r.allowedPaths) == Snapshot(before, r.allowedPaths)
  {
    var paths := r.allowedPaths;
    var theirs := PutBack(after, r.baseline, paths);
    SparedPaths(r, before, after, original);
    DeclaredPathsSeparate(r.baseline);
    SnapshotDependsOnPaths(after, before, paths);
    forall q | Outside(paths, q) ensures ShapeAt(after, q) == ShapeAt(theirs, q) {
      PutBackShapes(after, r.baseline, paths, q);
    }
    forall i | 0 <= i < |paths|
      ensures PointerValue(theirs, paths[i]) == PointerValue(original, paths[i])
      ensures PointerValue(theirs, paths[i]).Some?
    {
      BaselineValues(r, original, i);
      PutBackValues(after, r.baseline, paths, i);
    }
    SnapshotDependsOnPaths(theirs, original, paths);
    ContainedAfterEdit(r, before, after, original, theirs);
  }

  lemma ContainedAfterEdit(r: Record, before: Json, after: Json, original: Json, theirs: Json)
    requires Contained(r, before, original) && SeparatePaths(r.allowedPaths)
    requires SameOutside(after, theirs, r.allowedPaths)
    requires forall i :: 0 <= i < |r.allowedPaths| ==>
      PointerValue(after, r.allowedPaths[i]) == PointerValue(before, r.allowedPaths[i])
    requires forall i :: 0 <= i < |r.allowedPaths| ==>
      PointerValue(theirs, r.allowedPaths[i]) == PointerValue(original, r.allowedPaths[i]) &&
      PointerValue(theirs, r.allowedPaths[i]).Some?
    ensures Contained(r, after, theirs)
  {
    forall i | 0 <= i < |r.allowedPaths| ensures BaselineOrTailored(r, after, r.allowedPaths[i]) {
      assert BaselineOrTailored(r, before, r.allowedPaths[i]);
    }
    if r.status == Status.Planned {
      SameEverywhere(after, theirs, r.allowedPaths);
    }
  }

  lemma SafeEdit(w: World, w': World, original: Json)
    requires Sound(w) && Next(w, w', ThirdPartyEdit) && Safe(w, original) && Beside(w, w')
    ensures Safe(w', AfterEdit(w, w'))
  {
    if w.active.Some? {
      var r := w.records[w.active.value];
      assert SoundRecord(w.proposals, r);
      ContainedEdit(r, w.remote, w'.remote, original);
    }
  }

  // Main result: over every run of crashes, retries, partial writes and considerate third
  // parties, started with no saga under way, the account differs from what third parties
  // alone would have made of it at the allowed paths of the saga under way only, holds the
  // baseline or the tailored value at each of them, and is exactly theirs whenever no saga
  // is under way.
  lemma {:induction false} SagaSafety(worlds: seq<World>, steps: seq<Step>, i: nat)
    requires IsRun(worlds, steps) && Considerate(worlds, steps) && i < |worlds|
    requires Sound(worlds[0]) && worlds[0].active.None?
    ensures Sound(worlds[i]) && Safe(worlds[i], Theirs(worlds, steps, i))
  {
    hide Next, Sound, Safe, Beside, TrueReading, AfterEdit;
    if i == 0 {
      NothingUnderWay(worlds[0]);
    } else {
      var k := i - 1;
      SagaSafety(worlds, steps, k);
      SoundStep(worlds[k], worlds[i], steps[k]);
      if steps[k].ThirdPartyEdit? {
        SafeEdit(worlds[k], worlds[i], Theirs(worlds, steps, k));
      } else {
        SafeStep(worlds[k], worlds[i], steps[k], Theirs(worlds, steps, k));
      }
    }
  }

  lemma NothingUnderWay(w: World)
    requires w.active.None?
    ensures Safe(w, w.remote)
  {
  }

  // In such a run, whenever a saga is stored as Submitting, it is the one under way and the
  // account shows its tailored values.
  lemma SubmittingShowsTailored(worlds: seq<World>, steps: seq<Step>, i: nat, id: string)
    requires IsRun(worlds, steps) && Considerate(worlds, steps) && i < |worlds|
    requires Sound(worlds[0]) && worlds[0].active.None?
    requires id in worlds[i].records && worlds[i].records[id].status == Submitting
    ensures worlds[i].active == Some(id) && ShowsTailored(worlds[i].records[id], worlds[i].remote)
  {
    SagaSafety(worlds, steps, i);
  }

  // The store of Restored gives the account back as third parties left it, and a reader
  // sees the baseline again.
  lemma RestoredShowsBaseline(worlds: seq<World>, steps: seq<Step>, k: nat)
    requires IsRun(worlds, steps) && Considerate(worlds, steps) && k < |steps|
    requires Sound(worlds[0]) && worlds[0].active.None?
    requires steps[k].Save? && steps[k].record.status == Restored
    ensures worlds[k + 1].active.None? && worlds[k + 1].remote == Theirs(worlds, steps, k + 1)
    ensures Snapshot(worlds[k + 1].remote, steps[k].record.allowedPaths) == steps[k].record.baseline
  {
    var r := steps[k].record;
    SagaSafety(worlds, steps, k);
    SagaSafety(worlds, steps, k + 1);
    assert Next(worlds[k], worlds[k + 1], steps[k]);
    SaveSource(worlds[k], worlds[k].records[r.id], r);
    OneActiveSave(worlds[k], worlds[k + 1], r);
  }

  // ---- runs without third-party edits ----

  ghost predicate Quiet(steps: seq<Step>) {
    forall i :: 0 <= i < |steps| ==> !steps[i].ThirdPartyEdit?
  }

  lemma TrueReadingStep(w: World, w': World, s: Step)
    requires Next(w, w', s) && TrueReading(w) && !s.ThirdPartyEdit?
    ensures TrueReading(w')
  {
  }

  lemma {:induction false} QuietReading(worlds: seq<World>, steps: seq<Step>, i: nat)
    requires IsRun(worlds, steps) && Quiet(steps) && TrueReading(worlds[0]) && i < |worlds|
    ensures TrueReading(worlds[i]) && Theirs(worlds, steps, i) == worlds[0].remote
  {
    hide Next, TrueReading;
    if i > 0 {
      QuietReading(worlds, steps, i - 1);
      TrueReadingStep(worlds[i - 1], worlds[i], steps[i - 1]);
    }
  }

  // Without third-party edits the account is the original one but for the saga under way,
  // entirely so whenever none is.
  lemma QuietSafety(worlds: seq<World>, steps: seq<Step>, i: nat)
    requires IsRun(worlds, steps) && Quiet(steps) && i < |worlds|
    requires Sound(worlds[0]) && worlds[0].active.None? && worlds[0].reading.None?
    ensures Considerate(worlds, steps)
    ensures Sound(worlds[i]) && Safe(worlds[i], worlds[0].remote)
  {
    hide Next, Sound, Safe, Beside;
    forall k | 0 <= k < |steps| ensures TrueReading(worlds[k]) {
      QuietReading(worlds, steps, k);
    }
    QuietReading(worlds, steps, i);
    SagaSafety(worlds, steps, i);
  }

  // A step keeps the inputs of a stored record, and a new one has the reader's values as
  // its baseline.
  lemma BaselineStep(w: World, w': World, s: Step, id: string)
    requires Next(w, w', s) && id in w'.records
    ensures id in w.records ==> SameInputs(w.records[id], w'.records[id])
    ensures id !in w.records && TrueReading(w) ==>
      w.active.None? && w'.records[id].baseline == Snapshot(w.remote, w'.records[id].allowedPaths)
  {
    hide ValidRecord, SaveAllowed, WriteAllowed;
    if s.Save? {
      SaveSource(w, w.records[s.record.id], s.record);
    }
  }

  // Records stored since such a run began took the original account as their baseline.
  lemma {:induction false} QuietBaselines(worlds: seq<World>, steps: seq<Step>, i: nat, id: string)
    requires IsRun(worlds, steps) && Quiet(steps) && i < |worlds|
    requires Sound(worlds[0]) && worlds[0].active.None? && worlds[0].reading.None?
    requires id in worlds[i].records && id !in worlds[0].records
    ensures worlds[i].records[id].baseline == Snapshot(worlds[0].remote, worlds[i].records[id].allowedPaths)
  {
    hide Next, Sound, Quiet;
    assert i > 0;
    var k := i - 1;
    QuietSafety(worlds, steps, k);
    QuietReading(worlds, steps, k);
    BaselineStep(worlds[k], worlds[i], steps[k], id);
    if id in worlds[k].records {
      QuietBaselines(worlds, steps, k, id);
    }
  }

  // Once no saga is under way, a reader sees the baseline of every saga of such a run.
  lemma QuietShowsBaselines(worlds: seq<World>, steps: seq<Step>, i: nat, id: string)
    requires IsRun(worlds, steps) && Quiet(steps) && i < |worlds| && worlds[i].active.None?
    requires Sound(worlds[0]) && worlds[0].active.None? && worlds[0].reading.None?
    requires id in worlds[i].records && id !in worlds[0].records
    ensures worlds[i].remote == worlds[0].remote
    ensures Snapshot(worlds[i].remote, worlds[i].records[id].allowedPaths) == worlds[i].records[id].baseline
  {
    QuietSafety(worlds, steps, i);
    QuietBaselines(worlds, steps, i, id);
  }
}
