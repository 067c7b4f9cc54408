// What a proposal promises on every retry: planning, classification and
// convergence of the desired-state engine.
module RetrySafety {
  import opened Wrappers
  import opened Ordering
  import opened Sorting
  import opened Uniqueness
  import opened JsonPointer
  import opened JsonTree
  import opened Leaves
  import opened ProfileState

  // ---- the plan, read path by path ----

  ghost function AfterAt(desired: Json, path: string): Json {
    if PointerValue(desired, path).Some? then PointerValue(desired, path).value else Null
  }

  // The changes the plan needs, looked up through the declared pointers alone.
  ghost function ByPath(observed: Json, desired: Json, paths: seq<string>): seq<Change> {
    if paths == [] then []
    else
      var last := paths[|paths| - 1];
      Append(ByPath(observed, desired, paths[..|paths| - 1]),
        ChangeFor(last, PointerValue(observed, last), AfterAt(desired, last)))
  }

  lemma {:induction false} ByPathMembers(observed: Json, desired: Json, paths: seq<string>, c: Change)
    ensures c in ByPath(observed, desired, paths) <==>
      c.path in paths && ChangeFor(c.path, PointerValue(observed, c.path), AfterAt(desired, c.path)) == Some(c)
  {
    if paths != [] {
      var last := paths[|paths| - 1];
      ByPathMembers(observed, desired, paths[..|paths| - 1], c);
      assert c.path in paths <==> c.path in paths[..|paths| - 1] || c.path == last;
    }
  }

  lemma {:induction false} ByPathSorted(observed: Json, desired: Json, paths: seq<string>)
    requires StrictlySorted(paths, Identity)
    ensures StrictlySorted(ByPath(observed, desired, paths), ChangePath)
  {
    if paths != [] {
      var init := paths[..|paths| - 1];
      var last := paths[|paths| - 1];
      ByPathSorted(observed, desired, init);
      var before := ByPath(observed, desired, init);
      forall i | 0 <= i < |before| ensures Less(ChangePath(before[i]), last) {
        ByPathMembers(observed, desired, init, before[i]);
        var j :| 0 <= j < |init| && init[j] == before[i].path;
        assert Less(Identity(paths[j]), Identity(last));
      }
    }
  }

  // Leaf p is where the recursive diff found change c.
  ghost predicate IsPlanLeaf(observed: Json, desired: Json, leaves: seq<Path>, c: Change, p: Path) {
    p in leaves && Lookup(desired, p).Some? &&
    ChangeFor(Pointer(p), Lookup(observed, p), Lookup(desired, p).value) == Some(c)
  }

  lemma {:induction false} PlanMembers(observed: Json, desired: Json, leaves: seq<Path>, c: Change)
    ensures c in Plan([], Some(observed), desired, leaves) <==>
      exists p :: IsPlanLeaf(observed, desired, leaves, c, p)
  {
    if leaves != [] {
      var init := leaves[..|leaves| - 1];
      var last := leaves[|leaves| - 1];
      PlanMembers(observed, desired, init, c);
      assert [] + last == last;
      forall p ensures IsPlanLeaf(observed, desired, leaves, c, p) <==>
        IsPlanLeaf(observed, desired, init, c, p) || (p == last && IsPlanLeaf(observed, desired, [last], c, p)) {
        assert p in leaves <==> p in init || p == last;
      }
      assert IsPlanLeaf(observed, desired, [last], c, last) ==> IsPlanLeaf(observed, desired, leaves, c, last);
      if p :| IsPlanLeaf(observed, desired, init, c, p) {
        assert IsPlanLeaf(observed, desired, leaves, c, p);
      }
    }
  }

  lemma {:induction false} PlanDistinct(observed: Json, desired: Json, leaves: seq<Path>)
    requires Distinct(leaves)
    ensures DistinctKeys(Plan([], Some(observed), desired, leaves), ChangePath)
  {
    if leaves != [] {
      var init := leaves[..|leaves| - 1];
      var last := leaves[|leaves| - 1];
      PlanDistinct(observed, desired, init);
      var before := Plan([], Some(observed), desired, init);
      assert [] + last == last;
      forall y | y in before ensures ChangePath(y) != Pointer(last) {
        PlanMembers(observed, desired, init, y);
        var p :| IsPlanLeaf(observed, desired, init, y, p);
        PointerInjective(p, last);
      }
      if Lookup(desired, last).Some? {
        var change := ChangeFor(Pointer(last), Lookup(observed, last), Lookup(desired, last).value);
        if change.Some? {
          DistinctAppend(before, change.value, ChangePath);
        }
      }
    }
  }

  // The recursive diff, once sorted, is the path-by-path plan: walking both trees
  // together sees exactly the values that pointer lookups see.
  lemma DiffIsPointwise(observed: Json, desired: Json)
    ensures PlannedChanges(observed, desired) == ByPath(observed, desired, DeclaredPaths(desired))
    ensures StrictlySorted(PlannedChanges(observed, desired), ChangePath)
  {
    var paths := DeclaredPaths(desired);
    var leaves := LeavesOf(desired);
    var plan := Plan([], Some(observed), desired, leaves);
    DeclaredPathsExact(desired);
    LeavesDistinct(desired);
    PlanDistinct(observed, desired, leaves);
    SortByStrict(plan, ChangePath);
    ByPathSorted(observed, desired, paths);
    forall c ensures c in SortBy(plan, ChangePath) <==> c in ByPath(observed, desired, paths) {
      PlanMember(observed, desired, c);
    }
    SortedUnique(SortBy(plan, ChangePath), ByPath(observed, desired, paths), ChangePath);
  }

  lemma PlanMember(observed: Json, desired: Json, c: Change)
    ensures c in Plan([], Some(observed), desired, LeavesOf(desired)) <==>
            c in ByPath(observed, desired, DeclaredPaths(desired))
  {
    PlanMembers(observed, desired, LeavesOf(desired), c);
    ByPathMembers(observed, desired, DeclaredPaths(desired), c);
    if p :| IsPlanLeaf(observed, desired, LeavesOf(desired), c, p) {
      LeavesAreLeaves(desired, p);
      LeafDeclared(desired, p);
      LookupPointer(desired, p);
      LookupPointer(observed, p);
    }
    if c.path in DeclaredPaths(desired) {
      var p := LeafOfPointer(desired, c.path);
      LeavesAreLeaves(desired, p);
      LookupPointer(observed, p);
      assert IsPlanLeaf(observed, desired, LeavesOf(desired), c, p) <==>
        ChangeFor(c.path, PointerValue(observed, c.path), AfterAt(desired, c.path)) == Some(c);
    }
  }

  // ---- the plan, read off both trees ----

  // What a change says: set or clear, and what stands and what is to stand at its path.
  ghost predicate SaysWhatStands(c: Change, observed: Json, desired: Json) {
    PointerValue(desired, c.path).Some? &&
    (c.operation == Clear <==> PointerValue(desired, c.path) == Some(Null)) &&
    c.afterDigest == Digest(PointerValue(desired, c.path).value) &&
    match PointerValue(observed, c.path)
    case None => !c.beforePresent && c.beforeDigest == None
    case Some(before) => c.beforePresent && c.beforeDigest == Some(Digest(before))
  }

  ghost predicate Touches(changes: seq<Change>, path: string) {
    exists i :: 0 <= i < |changes| && changes[i].path == path
  }

  // The values differ, and not only as an absent field differs from a cleared one.
  ghost predicate Differs(observed: Json, desired: Json, path: string) {
    PointerValue(observed, path) != PointerValue(desired, path) &&
    !(PointerValue(observed, path) == None && PointerValue(desired, path) == Some(Null))
  }

  // In path order, one change for each declared path whose values differ and none for any
  // other.
  ghost predicate PlanSays(changes: seq<Change>, observed: Json, desired: Json) {
    StrictlySorted(changes, ChangePath) &&
    (forall c :: c in changes ==> c.path in DeclaredPaths(desired) && SaysWhatStands(c, observed, desired)) &&
    forall path :: path in DeclaredPaths(desired) ==> (Touches(changes, path) <==> Differs(observed, desired, path))
  }

  // A declared field has a desired value.
  lemma DeclaredHasValue(desired: Json, path: string)
    requires path in DeclaredPaths(desired)
    ensures PointerValue(desired, path) == Some(AfterAt(desired, path))
  {
    var leaf := LeafOfPointer(desired, path);
  }

  lemma ChangeSays(c: Change, observed: Json, desired: Json)
    requires c.path in DeclaredPaths(desired)
    ensures ChangeFor(c.path, PointerValue(observed, c.path), AfterAt(desired, c.path)) == Some(c) <==>
      SaysWhatStands(c, observed, desired) && Differs(observed, desired, c.path)
  {
    hide PointerValue, DeclaredPaths, AfterAt;
    DeclaredHasValue(desired, c.path);
  }

  // Main result on plans: the planned changes say, by pointer lookups alone, where the trees
  // differ and how to make them agree.
  lemma PlannedSays(observed: Json, desired: Json)
    ensures PlanSays(PlannedChanges(observed, desired), observed, desired)
  {
    var paths, changes := DeclaredPaths(desired), PlannedChanges(observed, desired);
    DiffIsPointwise(observed, desired);
    forall c | c in changes ensures c.path in paths && SaysWhatStands(c, observed, desired) {
      ByPathMembers(observed, desired, paths, c);
      ChangeSays(c, observed, desired);
    }
    forall path | path in paths ensures Touches(changes, path) <==> Differs(observed, desired, path) {
      TouchedWhereDifferent(observed, desired, path);
    }
  }

  lemma TouchedWhereDifferent(observed: Json, desired: Json, path: string)
    requires path in DeclaredPaths(desired)
    ensures Touches(PlannedChanges(observed, desired), path) <==> Differs(observed, desired, path)
  {
    hide PointerValue, DeclaredPaths, AfterAt, PlannedChanges;
    var paths, changes := DeclaredPaths(desired), PlannedChanges(observed, desired);
    var step := ChangeFor(path, PointerValue(observed, path), AfterAt(desired, path));
    DiffIsPointwise(observed, desired);
    DeclaredHasValue(desired, path);
    if step.Some? {
      ByPathMembers(observed, desired, paths, step.value);
      var i :| 0 <= i < |changes| && changes[i] == step.value;
      assert changes[i].path == path;
    }
    if i :| 0 <= i < |changes| && changes[i].path == path {
      ByPathMembers(observed, desired, paths, changes[i]);
    }
  }

  // Nothing else says that.
  lemma PlanSaysDecides(changes: seq<Change>, observed: Json, desired: Json)
    requires PlanSays(changes, observed, desired)
    ensures changes == PlannedChanges(observed, desired)
  {
    var planned := PlannedChanges(observed, desired);
    PlannedSays(observed, desired);
    forall c ensures c in changes <==> c in planned {
      if c in changes {
        SaidAlike(changes, planned, observed, desired, c);
      }
      if c in planned {
        SaidAlike(planned, changes, observed, desired, c);
      }
    }
    SortedUnique(changes, planned, ChangePath);
  }

  lemma SaidAlike(a: seq<Change>, b: seq<Change>, observed: Json, desired: Json, c: Change)
    requires PlanSays(a, observed, desired) && PlanSays(b, observed, desired) && c in a
    ensures c in b
  {
    hide PointerValue, DeclaredPaths, StrictlySorted;
    var i :| 0 <= i < |a| && a[i] == c;
    assert Touches(a, c.path);
    assert Differs(observed, desired, c.path);
    var j :| 0 <= j < |b| && b[j].path == c.path;
    assert SaysWhatStands(b[j], observed, desired) && SaysWhatStands(c, observed, desired);
  }

  // ---- a fresh proposal is valid ----

  // NewProfileStateProposal fails only on invalid inputs or above the change limit.
  lemma PlannedProposalIsValid(id: string, resource: Resource, observation: Observation)
    requires id != "" && resource.Valid() && observation.Valid() && resource.profileId == observation.profileId
    ensures ProposalOf(id, resource, observation).Valid() <==>
      |PlannedChanges(observation.state, resource.state)| <= MAXIMUM_CHANGES
  {
    var changes := PlannedChanges(observation.state, resource.state);
    DiffIsPointwise(observation.state, resource.state);
    assert ValidChanges(changes) by {
      forall i: nat | i < |changes| ensures ValidChangeAt(changes, i) {
        ByPathMembers(observation.state, resource.state, DeclaredPaths(resource.state), changes[i]);
        var p := LeafOfPointer(resource.state, changes[i].path);
        if i == 0 {
          assert p != [] ==> Pointer(p) != "";
          assert resource.state.Object?;
          assert p != [];
        } else {
          assert Less(ChangePath(changes[i - 1]), ChangePath(changes[i]));
        }
      }
    }
  }

  // Whose proposal it is, from what to what.
  ghost predicate ProposedFor(p: Proposal, id: string, resource: Resource, observation: Observation) {
    p.id == id && p.resourceTag == resource.tag && p.profileId == resource.profileId == observation.profileId &&
    p.manifest == resource.manifest && p.desired == resource.state && p.desiredDigest == Digest(resource.state) &&
    p.observedDigest == Digest(observation.state) && p.remoteRevision == observation.remoteRevision &&
    (p.status == ProposalNoChanges <==>
      forall path :: path in DeclaredPaths(resource.state) ==> !Differs(observation.state, resource.state, path))
  }

  lemma NoChangesExactly(changes: seq<Change>, observed: Json, desired: Json)
    requires PlanSays(changes, observed, desired)
    ensures changes == [] <==> forall path :: path in DeclaredPaths(desired) ==> !Differs(observed, desired, path)
  {
    if changes != [] {
      assert changes[0] in changes && Touches(changes, changes[0].path);
    } else {
      forall path ensures !Touches(changes, path) {
      }
    }
  }

  method NewProfileStateProposal(id: string, resource: Resource, observation: Observation)
    returns (r: Result<Proposal, StateError>)
    ensures r.Ok? <==>
      (id != "" && resource.Valid() && observation.Valid() && resource.profileId == observation.profileId &&
       |PlannedChanges(observation.state, resource.state)| <= MAXIMUM_CHANGES)
    ensures r.Ok? ==> r.value == ProposalOf(id, resource, observation) && r.value.Valid()
    ensures r.Ok? ==> PlanSays(r.value.changes, observation.state, resource.state)
    ensures r.Ok? ==> ProposedFor(r.value, id, resource, observation)
    ensures r.Err? && id != "" && resource.Valid() && observation.Valid() ==>
      r.error == if resource.profileId != observation.profileId then ProfilesDiffer else TooManyChanges
  {
    if id == "" {
      return Err(Invalid);
    }
    var resourceValid := ValidateResource(resource);
    if !resourceValid {
      return Err(Invalid);
    }
    var observationValid := ValidateObservation(observation);
    if !observationValid {
      return Err(Invalid);
    }
    if resource.profileId != observation.profileId {
      return Err(ProfilesDiffer);
    }
    var diff := DiffProfileState(observation.state, resource.state);
    if diff.Err? {
      return Err(diff.error);
    }
    var proposal := Proposal(
      id, resource.tag, resource.profileId, if |diff.value| == 0 then ProposalNoChanges else ProposalPlanned,
      resource.manifest, observation.digest, Digest(resource.state), observation.remoteRevision,
      resource.state, diff.value,
      ProposalKey(resource.tag, resource.profileId, resource.manifest, observation.digest, observation.remoteRevision));
    PlannedProposalIsValid(id, resource, observation);
    PlannedSays(observation.state, resource.state);
    NoChangesExactly(diff.value, observation.state, resource.state);
    // The final validation of a proposal built from valid parts never fails.
    r := Ok(proposal);
  }

  // ---- classification against the observation a plan was made from ----

  lemma TableAppend(before: seq<Change>, step: Option<Change>, q: string)
    ensures Entry(TableOf(Append(before, step)), q) ==
      if step.Some? && step.value.path == q then step else Entry(TableOf(before), q)
  {
    if step.Some? {
      assert (before + [step.value])[..|before|] == before;
    }
  }

  lemma {:induction false} TableOfByPath(observed: Json, desired: Json, paths: seq<string>, q: string)
    requires DistinctKeys(paths, Identity)
    ensures Entry(TableOf(ByPath(observed, desired, paths)), q) ==
      if q in paths then ChangeFor(q, PointerValue(observed, q), AfterAt(desired, q)) else None
  {
    if paths != [] {
      var init := paths[..|paths| - 1];
      var last := paths[|paths| - 1];
      TableOfByPath(observed, desired, init, q);
      LastIsNew(paths);
      TableAppend(ByPath(observed, desired, init),
        ChangeFor(last, PointerValue(observed, last), AfterAt(desired, last)), q);
      assert paths == init + [last];
    }
  }

  // A change is planned exactly for the fields that are not as desired.
  lemma ChangeNeeded(path: string, before: Option<Json>, after: Json)
    ensures ChangeFor(path, before, after).None? <==> Matches(before, after)
  {
  }

  // Judged against the planned change, a field is done when as desired, waiting
  // when unchanged since planning, and otherwise in conflict.
  lemma PlannedVerdict(path: string, before: Option<Json>, now: Option<Json>, after: Json)
    ensures Judge(ChangeFor(path, before, after), now, after) ==
      if Matches(now, after) then Done
      else if now == before then Waiting(ChangeFor(path, before, after).value)
      else Conflict
  {
  }

  ghost predicate FromPlan(p: Proposal, planned: Json) {
    p.changes == PlannedChanges(planned, p.desired)
  }

  lemma VerdictFromPlan(p: Proposal, planned: Json, observed: Json, path: string)
    requires FromPlan(p, planned) && path in DeclaredPaths(p.desired)
    ensures var after := AfterAt(p.desired, path);
      VerdictAt(TableOf(p.changes), p.desired, observed, path) ==
      if Matches(PointerValue(observed, path), after) then Done
      else if PointerValue(observed, path) == PointerValue(planned, path)
      then Waiting(ChangeFor(path, PointerValue(planned, path), after).value)
      else Conflict
  {
    DiffIsPointwise(planned, p.desired);
    DeclaredPathsExact(p.desired);
    StrictIsDistinct(DeclaredPaths(p.desired), Identity);
    TableOfByPath(planned, p.desired, DeclaredPaths(p.desired), path);
    var leaf := LeafOfPointer(p.desired, path);
    PlannedVerdict(path, PointerValue(planned, path), PointerValue(observed, path), AfterAt(p.desired, path));
  }

  // Still to be written: planned changes whose field is not as desired.
  ghost function Unsettled(changes: seq<Change>, desired: Json, observed: Json): seq<Change> {
    if changes == [] then []
    else
      var last := changes[|changes| - 1];
      var before := Unsettled(changes[..|changes| - 1], desired, observed);
      if Matches(PointerValue(observed, last.path), AfterAt(desired, last.path)) then before else before + [last]
  }

  // The field holds what was planned from or what is desired.
  ghost predicate BeforeOrDesired(planned: Json, desired: Json, observed: Json, path: string) {
    PointerValue(observed, path) == PointerValue(planned, path) ||
    Matches(PointerValue(observed, path), AfterAt(desired, path))
  }

  lemma ByPathLast(planned: Json, desired: Json, observed: Json, paths: seq<string>)
    requires paths != []
    ensures Unsettled(ByPath(planned, desired, paths), desired, observed) ==
      var last := paths[|paths| - 1];
      var before := Unsettled(ByPath(planned, desired, paths[..|paths| - 1]), desired, observed);
      if Matches(PointerValue(observed, last), AfterAt(desired, last)) then before
      else Append(before, ChangeFor(last, PointerValue(planned, last), AfterAt(desired, last)))
  {
    var last := paths[|paths| - 1];
    var before := ByPath(planned, desired, paths[..|paths| - 1]);
    var step := ChangeFor(last, PointerValue(planned, last), AfterAt(desired, last));
    var all := ByPath(planned, desired, paths);
    if step.Some? {
      assert all[..|all| - 1] == before;
    } else {
      assert all == before;
    }
  }

  lemma {:induction false} ClassifyAccepts(p: Proposal, planned: Json, observed: Json, paths: seq<string>)
    requires FromPlan(p, planned)
    requires forall i :: 0 <= i < |paths| ==>
      paths[i] in DeclaredPaths(p.desired) && BeforeOrDesired(planned, p.desired, observed, paths[i])
    ensures Classify(TableOf(p.changes), p.desired, observed, paths) ==
      Some(Unsettled(ByPath(planned, p.desired, paths), p.desired, observed))
  {
    if paths != [] {
      var last := paths[|paths| - 1];
      var after := AfterAt(p.desired, last);
      ClassifyAccepts(p, planned, observed, paths[..|paths| - 1]);
      VerdictFromPlan(p, planned, observed, last);
      ByPathLast(planned, p.desired, observed, paths);
      ChangeNeeded(last, PointerValue(planned, last), after);
      assert BeforeOrDesired(planned, p.desired, observed, last);
    }
  }

  lemma ClassifyRejects(p: Proposal, planned: Json, observed: Json, paths: seq<string>, i: nat)
    requires FromPlan(p, planned)
    requires i < |paths| && paths[i] in DeclaredPaths(p.desired)
    requires !BeforeOrDesired(planned, p.desired, observed, paths[i])
    ensures Classify(TableOf(p.changes), p.desired, observed, paths).None?
  {
    VerdictFromPlan(p, planned, observed, paths[i]);
    ClassifyStep(TableOf(p.changes), p.desired, observed, paths, i);
    ClassifyStops(TableOf(p.changes), p.desired, observed, paths, i + 1);
  }

  ghost predicate AllHold(planned: Json, desired: Json, observed: Json) {
    forall path :: path in DeclaredPaths(desired) ==> BeforeOrDesired(planned, desired, observed, path)
  }

  // Main result on retries. ChangesToApply fails exactly when some declared field
  // holds neither the value planned from nor the desired one, and otherwise returns,
  // in order, exactly the planned changes that are not yet as desired.
  lemma RetryAfterPartialApply(p: Proposal, planned: Json, observed: Json)
    requires FromPlan(p, planned)
    ensures
      Remaining(p, observed) ==
      if AllHold(planned, p.desired, observed)
      then Some(Unsettled(p.changes, p.desired, observed))
      else None
  {
    hide BeforeOrDesired, Classify, Unsettled, DeclaredPaths, PlannedChanges;
    var paths := DeclaredPaths(p.desired);
    if AllHold(planned, p.desired, observed) {
      DiffIsPointwise(planned, p.desired);
      forall i | 0 <= i < |paths|
        ensures paths[i] in DeclaredPaths(p.desired) && BeforeOrDesired(planned, p.desired, observed, paths[i])
      {
      }
      ClassifyAccepts(p, planned, observed, paths);
    } else {
      var path :| path in paths && !BeforeOrDesired(planned, p.desired, observed, path);
      var i :| 0 <= i < |paths| && paths[i] == path;
      ClassifyRejects(p, planned, observed, paths, i);
    }
  }

  // What a retry is left with, by pointer lookups alone: in path order, the planned changes
  // whose field still differs. It is refused exactly when some declared field differs both
  // from what was planned from and from what is desired.
  lemma RetrySays(p: Proposal, planned: Json, observed: Json)
    requires FromPlan(p, planned)
    ensures Remaining(p, observed).None? <==>
      exists path :: path in DeclaredPaths(p.desired) && Differs(observed, p.desired, path) &&
        PointerValue(observed, path) != PointerValue(planned, path)
    ensures Remaining(p, observed).Some? ==>
      StrictlySorted(Remaining(p, observed).value, ChangePath) &&
      forall c :: c in Remaining(p, observed).value <==> c in p.changes && Differs(observed, p.desired, c.path)
  {
    hide Classify, PointerValue, DeclaredPaths, AfterAt, PlannedChanges, Unsettled;
    RetryAfterPartialApply(p, planned, observed);
    DiffIsPointwise(planned, p.desired);
    UnsettledSorted(p.changes, p.desired, observed);
    forall path | path in DeclaredPaths(p.desired)
      ensures BeforeOrDesired(planned, p.desired, observed, path) <==>
        !Differs(observed, p.desired, path) || PointerValue(observed, path) == PointerValue(planned, path)
    {
      DeclaredHasValue(p.desired, path);
    }
    forall c ensures c in Unsettled(p.changes, p.desired, observed) <==>
      c in p.changes && Differs(observed, p.desired, c.path)
    {
      UnsettledMembers(p.changes, p.desired, observed, c);
      ByPathMembers(planned, p.desired, DeclaredPaths(p.desired), c);
      if c in p.changes {
        DeclaredHasValue(p.desired, c.path);
      }
    }
  }

  lemma {:induction false} UnsettledSorted(changes: seq<Change>, desired: Json, observed: Json)
    requires StrictlySorted(changes, ChangePath)
    ensures StrictlySorted(Unsettled(changes, desired, observed), ChangePath)
  {
    if changes != [] {
      var init, last := changes[..|changes| - 1], changes[|changes| - 1];
      UnsettledSorted(init, desired, observed);
      var before := Unsettled(init, desired, observed);
      forall i | 0 <= i < |before| ensures Less(ChangePath(before[i]), ChangePath(last)) {
        UnsettledMembers(init, desired, observed, before[i]);
        var j :| 0 <= j < |init| && init[j] == before[i];
        assert Less(ChangePath(changes[j]), ChangePath(last));
      }
    }
  }

  // On the observation the plan was made from, every change is still to be made.
  lemma FirstAttemptAppliesAll(p: Proposal, planned: Json)
    requires FromPlan(p, planned)
    ensures Remaining(p, planned) == Some(p.changes)
  {
    RetryAfterPartialApply(p, planned, planned);
    DiffIsPointwise(planned, p.desired);
    AllUnsettled(planned, p.desired, DeclaredPaths(p.desired));
  }

  lemma {:induction false} AllUnsettled(planned: Json, desired: Json, paths: seq<string>)
    ensures Unsettled(ByPath(planned, desired, paths), desired, planned) == ByPath(planned, desired, paths)
  {
    if paths != [] {
      var init := paths[..|paths| - 1];
      var last := paths[|paths| - 1];
      AllUnsettled(planned, desired, init);
      var all := ByPath(planned, desired, paths);
      if ChangeFor(last, PointerValue(planned, last), AfterAt(desired, last)).Some? {
        assert all[..|all| - 1] == ByPath(planned, desired, init);
      } else {
        assert all == ByPath(planned, desired, init);
      }
    }
  }

  // ---- convergence ----

  ghost predicate AllSettled(desired: Json, observed: Json) {
    forall path :: path in DeclaredPaths(desired) ==> Matches(PointerValue(observed, path), AfterAt(desired, path))
  }

  lemma {:induction false} SettledLeavesNothing(table: map<string, Change>, desired: Json, observed: Json,
      paths: seq<string>)
    requires forall i :: 0 <= i < |paths| ==>
      paths[i] in DeclaredPaths(desired) && Matches(PointerValue(observed, paths[i]), AfterAt(desired, paths[i]))
    ensures Classify(table, desired, observed, paths) == Some([])
  {
    if paths != [] {
      var last := paths[|paths| - 1];
      SettledLeavesNothing(table, desired, observed, paths[..|paths| - 1]);
      var leaf := LeafOfPointer(desired, last);
      assert VerdictAt(table, desired, observed, last) == Done;
    }
  }

  lemma {:induction false} NothingLeftIsSettled(table: map<string, Change>, desired: Json, observed: Json,
      paths: seq<string>, i: nat)
    requires Classify(table, desired, observed, paths) == Some([])
    requires i < |paths| && PointerValue(desired, paths[i]).Some?
    ensures Matches(PointerValue(observed, paths[i]), AfterAt(desired, paths[i]))
    decreases |paths|
  {
    var last := paths[|paths| - 1];
    assert Classify(table, desired, observed, paths[..|paths| - 1]) == Some([]);
    assert VerdictAt(table, desired, observed, last) == Done;
    if i < |paths| - 1 {
      NothingLeftIsSettled(table, desired, observed, paths[..|paths| - 1], i);
    }
  }

  // Nothing is left to apply exactly when every declared field is as desired,
  // with null standing for absent. This holds of every proposal.
  lemma NothingLeftExactly(p: Proposal, observed: Json)
    ensures Remaining(p, observed) == Some([]) <==> AllSettled(p.desired, observed)
  {
    var paths := DeclaredPaths(p.desired);
    if AllSettled(p.desired, observed) {
      SettledLeavesNothing(TableOf(p.changes), p.desired, observed, paths);
    }
    if Remaining(p, observed) == Some([]) {
      forall i | 0 <= i < |paths| ensures Matches(PointerValue(observed, paths[i]), AfterAt(p.desired, paths[i])) {
        var leaf := LeafOfPointer(p.desired, paths[i]);
        NothingLeftIsSettled(TableOf(p.changes), p.desired, observed, paths, i);
      }
    }
  }

  // A run of platform writes, one change after another.
  ghost predicate WriteRun(trees: seq<Json>, changes: seq<Change>, desired: Json) {
    |trees| == |changes| + 1 &&
    forall i :: 0 <= i < |changes| ==> WriteAtStep(trees[i], trees[i + 1], changes[i].path, desired)
  }

  ghost predicate WriteAtStep(before: Json, after: Json, path: string, desired: Json) {
    Segments(path).Some? && Written(before, after, Segments(path).value, AfterAt(desired, path))
  }

  lemma WriteRunInit(trees: seq<Json>, changes: seq<Change>, desired: Json)
    requires WriteRun(trees, changes, desired) && changes != []
    ensures WriteRun(trees[..|changes|], changes[..|changes| - 1], desired)
    ensures WriteAtStep(trees[|changes| - 1], trees[|changes|], changes[|changes| - 1].path, desired)
  {
    var n := |changes|;
    forall i | 0 <= i < n - 1
      ensures WriteAtStep(trees[..n][i], trees[..n][i + 1], changes[..n - 1][i].path, desired)
    {
      assert WriteAtStep(trees[i], trees[i + 1], changes[i].path, desired);
    }
  }

  lemma TouchesLast(changes: seq<Change>, path: string)
    requires changes != []
    ensures Touches(changes, path) <==>
      Touches(changes[..|changes| - 1], path) || changes[|changes| - 1].path == path
  {
    if i :| 0 <= i < |changes| && changes[i].path == path {
      if i < |changes| - 1 {
        assert changes[..|changes| - 1][i].path == path;
      }
    }
  }

  // One write settles its own declared field and no other.
  lemma WriteStep(before: Json, after: Json, desired: Json, at: string, path: string)
    requires at in DeclaredPaths(desired) && path in DeclaredPaths(desired)
    requires WriteAtStep(before, after, at, desired)
    ensures if path == at then Matches(PointerValue(after, path), AfterAt(desired, path))
            else PointerValue(after, path) == PointerValue(before, path)
  {
    var p := LeafOfPointer(desired, path);
    var q := LeafOfPointer(desired, at);
    WrittenEffect(before, after, q, AfterAt(desired, at));
    LeavesArePrefixFree(desired, p, q);
    LookupPointer(before, p);
    LookupPointer(after, p);
  }

  lemma {:induction false} WriteRunEffect(trees: seq<Json>, changes: seq<Change>, desired: Json, path: string)
    requires WriteRun(trees, changes, desired)
    requires forall i :: 0 <= i < |changes| ==> changes[i].path in DeclaredPaths(desired)
    requires path in DeclaredPaths(desired)
    ensures if Touches(changes, path) then Matches(PointerValue(trees[|trees| - 1], path), AfterAt(desired, path))
            else PointerValue(trees[|trees| - 1], path) == PointerValue(trees[0], path)
    decreases |changes|
  {
    if changes != [] {
      var n := |changes|;
      WriteRunInit(trees, changes, desired);
      WriteRunEffect(trees[..n], changes[..n - 1], desired, path);
      TouchesLast(changes, path);
      WriteStep(trees[n - 1], trees[n], desired, changes[n - 1].path, path);
    }
  }

  // Writing pending changes, some or all, in any order and any number of times,
  // leaves a tree on which the retry succeeds with exactly the changes not written;
  // once all are written nothing is left.
  lemma WritesConverge(p: Proposal, planned: Json, trees: seq<Json>, written: seq<Change>)
    requires FromPlan(p, planned)
    requires WriteRun(trees, written, p.desired)
    requires Remaining(p, trees[0]).Some?
    requires forall c :: c in written ==> c in Remaining(p, trees[0]).value
    ensures Remaining(p, trees[|trees| - 1]) == Some(Unsettled(p.changes, p.desired, trees[|trees| - 1]))
    ensures forall c :: c in Remaining(p, trees[|trees| - 1]).value <==>
      c in Remaining(p, trees[0]).value && c !in written
  {
    var first := trees[0];
    var final := trees[|trees| - 1];
    RetryAfterPartialApply(p, planned, first);
    DiffIsPointwise(planned, p.desired);
    forall i | 0 <= i < |written| ensures written[i].path in DeclaredPaths(p.desired) {
      UnsettledMembers(p.changes, p.desired, first, written[i]);
      ByPathMembers(planned, p.desired, DeclaredPaths(p.desired), written[i]);
    }
    assert AllHold(planned, p.desired, first);
    forall path | path in DeclaredPaths(p.desired) ensures BeforeOrDesired(planned, p.desired, final, path) {
      WriteRunEffect(trees, written, p.desired, path);
      assert BeforeOrDesired(planned, p.desired, first, path);
    }
    assert AllHold(planned, p.desired, final);
    RetryAfterPartialApply(p, planned, final);
    forall c ensures c in Unsettled(p.changes, p.desired, final) <==>
      c in Unsettled(p.changes, p.desired, first) && c !in written
    {
      WrittenIsSettled(p, planned, trees, written, c);
    }
  }

  lemma {:induction false} UnsettledMembers(changes: seq<Change>, desired: Json, observed: Json, c: Change)
    ensures c in Unsettled(changes, desired, observed) <==>
      c in changes && !Matches(PointerValue(observed, c.path), AfterAt(desired, c.path))
  {
    if changes != [] {
      UnsettledMembers(changes[..|changes| - 1], desired, observed, c);
    }
  }

  lemma WrittenIsSettled(p: Proposal, planned: Json, trees: seq<Json>, written: seq<Change>, c: Change)
    requires FromPlan(p, planned)
    requires WriteRun(trees, written, p.desired)
    requires forall i :: 0 <= i < |written| ==> written[i].path in DeclaredPaths(p.desired)
    requires forall w :: w in written ==> w in Unsettled(p.changes, p.desired, trees[0])
    ensures c in Unsettled(p.changes, p.desired, trees[|trees| - 1]) <==>
      c in Unsettled(p.changes, p.desired, trees[0]) && c !in written
  {
    UnsettledMembers(p.changes, p.desired, trees[0], c);
    UnsettledMembers(p.changes, p.desired, trees[|trees| - 1], c);
    if c in p.changes {
      DiffIsPointwise(planned, p.desired);
      ByPathMembers(planned, p.desired, DeclaredPaths(p.desired), c);
      WriteRunEffect(trees, written, p.desired, c.path);
      if i :| 0 <= i < |written| && written[i].path == c.path {
        assert written[i] in written;
        UnsettledMembers(p.changes, p.desired, trees[0], written[i]);
        ByPathMembers(planned, p.desired, DeclaredPaths(p.desired), written[i]);
        assert written[i] == c;
      }
      if c in written {
        var i :| 0 <= i < |written| && written[i] == c;
        assert written[i].path == c.path;
      }
    }
  }
}
