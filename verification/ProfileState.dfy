// The desired-state engine of core/profile_state.go: canonical state trees,
// resources, observations, proposals, and the classification done on every retry.
module ProfileState {
  import opened Wrappers
  import opened Ordering
  import opened Sorting
  import opened JsonPointer
  import opened JsonTree
  import opened Leaves
  import opened Text

  const MAXIMUM_CHANGES: nat := 1024
  const MAXIMUM_DEPTH: nat := 32

  // SHA-256 over the canonical encoding, taken to be injective.
  datatype Digest = Digest(of: Json)

  // Digest over tag, profile, ownership and state of a resource.
  datatype ManifestDigest = ManifestDigest(tag: string, profileId: string, state: Json)

  datatype Operation = Set | Clear

  datatype Change = Change(
    path: string, operation: Operation, beforePresent: bool, beforeDigest: Option<Digest>, afterDigest: Digest)

  function ChangePath(c: Change): string { c.path }

  datatype StateError =
    | Invalid
    | NoLeaves
    | ProfilesDiffer
    | TooManyChanges
    | StateChanged(path: string)
    | NotDeclared(path: string)
    | DuplicateOverride(path: string)
    | ObjectOverride(path: string)

  // ---- canonical state trees ----

  ghost predicate ValidNested(v: Json, depth: nat)
    decreases v, 1
  {
    depth <= MAXIMUM_DEPTH &&
    match v
    case Object(_) => ValidObject(v, depth)
    case Array(items) => forall i :: 0 <= i < |items| ==> ValidNested(items[i], depth + 1)
    case _ => true
  }

  ghost predicate ValidField(key: string, v: Json, depth: nat)
    decreases v, 2
  {
    !Blank(key) && key != "processor" && ValidNested(v, depth)
  }

  ghost predicate ValidObject(v: Json, depth: nat)
    requires v.Object?
    decreases v, 0
  {
    depth <= MAXIMUM_DEPTH && forall k :: k in v.fields ==> ValidField(k, v.fields[k], depth + 1)
  }

  ghost predicate ValidState(t: Json) {
    t.Object? && (forall k :: k in t.fields ==> k == "profile" || k == "resumes") &&
    ("profile" in t.fields ==> t.fields["profile"].Object? && ValidObject(t.fields["profile"], 1)) &&
    ("resumes" in t.fields ==> t.fields["resumes"].Object? && ValidResumes(t.fields["resumes"]))
  }

  ghost predicate ValidResumes(resumes: Json)
    requires resumes.Object?
  {
    forall id :: id in resumes.fields ==>
      !Blank(id) && resumes.fields[id].Object? && ValidObject(resumes.fields[id], 1)
  }

  // validateNestedProfileStateValue
  method ValidateNested(v: Json, depth: nat) returns (ok: bool)
    ensures ok <==> ValidNested(v, depth)
    decreases v, 1
  {
    if depth > MAXIMUM_DEPTH {
      return false;
    }
    match v
    case Object(_) =>
      var count := ValidateAndCountObject(v, depth);
      ok := count.Some?;
    case Array(items) =>
      for i := 0 to |items|
        invariant forall j :: 0 <= j < i ==> ValidNested(items[j], depth + 1)
      {
        var valid := ValidateNested(items[i], depth + 1);
        if !valid {
          return false;
        }
      }
      ok := true;
    case _ =>
      ok := true;
  }

  // validateAndCountObject: validity, and on success the number of declared leaves.
  // Go visits the fields in no particular order.
  method ValidateAndCountObject(value: Json, depth: nat) returns (r: Option<nat>)
    requires value.Object?
    ensures r.Some? <==> ValidObject(value, depth)
    ensures r.Some? ==> r.value == |LeavesOf(value)|
    decreases value, 0
  {
    if depth > MAXIMUM_DEPTH {
      return None;
    }
    var count := 0;
    var remaining := value.fields.Keys;
    ghost var visited: set<string> := {};
    LeafTotalEmpty(value);
    while remaining != {}
      invariant visited + remaining == value.fields.Keys && visited !! remaining
      invariant forall k :: k in visited ==> ValidField(k, value.fields[k], depth + 1)
      invariant count == LeafTotal(value, visited)
      decreases remaining
    {
      var key :| key in remaining;
      var child := value.fields[key];
      if Blank(key) || key == "processor" {
        return None;
      }
      LeafTotalStep(value, visited, key);
      if child.Object? {
        var below := ValidateAndCountObject(child, depth + 1);
        assert ValidField(key, child, depth + 1) <==> ValidNested(child, depth + 1);
        assert ValidNested(child, depth + 1) <==> ValidObject(child, depth + 1);
        if below.None? {
          return None;
        }
        count := count + below.value;
      } else {
        var valid := ValidateNested(child, depth + 1);
        if !valid {
          return None;
        }
        count := count + 1;
      }
      remaining := remaining - {key};
      visited := visited + {key};
    }
    assert visited == value.fields.Keys;
    r := Some(count);
  }

  // Leaves below a set of fields, whatever order they are counted in.
  ghost function LeafTotal(t: Json, ks: set<string>): nat
    requires t.Object? && ks <= t.fields.Keys
  {
    |LeavesOver(t, KeyOrder(ks))|
  }

  lemma LeafTotalEmpty(t: Json)
    requires t.Object?
    ensures LeafTotal(t, {}) == 0
  {
    NonEmptyHasElement(KeyOrder({}));
  }

  lemma {:induction false} LeavesOverWithout(t: Json, keys: seq<string>, i: nat)
    requires t.Object? && i < |keys| && forall k :: k in keys ==> k in t.fields
    ensures keys[i] in t.fields
    ensures forall k :: k in keys[..i] + keys[i + 1..] ==> k in t.fields
    ensures |LeavesOver(t, keys)| == |LeavesOver(t, keys[..i] + keys[i + 1..])| + |LeavesOf(t.fields[keys[i]])|
    decreases |keys|
  {
    assert keys[i] in keys;
    var last := |keys| - 1;
    var without := keys[..i] + keys[i + 1..];
    assert keys[last] in keys;
    if i == last {
      assert without == keys[..last];
    } else {
      assert keys[..last][..i] + keys[..last][i + 1..] == without[..|without| - 1];
      LeavesOverWithout(t, keys[..last], i);
    }
  }

  // Dropping one key from a key order leaves the key order of the others.
  lemma KeyOrderWithout(ks: set<string>, key: string, i: nat)
    requires key !in ks
    requires i < |KeyOrder(ks + {key})| && KeyOrder(ks + {key})[i] == key
    ensures KeyOrder(ks + {key})[..i] + KeyOrder(ks + {key})[i + 1..] == KeyOrder(ks)
  {
    var keys := KeyOrder(ks + {key});
    var without := keys[..i] + keys[i + 1..];
    StrictIsDistinct(keys, Identity);
    forall k ensures k in without <==> k in ks {
      WithoutMembers(keys, i, k);
      assert k in keys <==> k in ks + {key};
    }
    KeyOrderUnique(without, ks);
  }

  lemma WithoutMembers(keys: seq<string>, i: nat, k: string)
    requires DistinctKeys(keys, Identity) && i < |keys|
    ensures k in keys[..i] + keys[i + 1..] <==> k in keys && k != keys[i]
  {
    var without := keys[..i] + keys[i + 1..];
    if k in without {
      var j :| 0 <= j < |without| && without[j] == k;
      var at := if j < i then j else j + 1;
      assert keys[at] == k;
      assert Identity(keys[if at < i then at else i]) != Identity(keys[if at < i then i else at]);
    }
    if k in keys && k != keys[i] {
      var at :| 0 <= at < |keys| && keys[at] == k;
      assert without[if at < i then at else at - 1] == k;
    }
  }

  lemma LeafTotalStep(t: Json, ks: set<string>, key: string)
    requires t.Object? && ks <= t.fields.Keys && key in t.fields && key !in ks
    ensures LeafTotal(t, ks + {key}) == LeafTotal(t, ks) + |LeavesOf(t.fields[key])|
  {
    var keys := KeyOrder(ks + {key});
    assert key in keys;
    var i :| 0 <= i < |keys| && keys[i] == key;
    KeyOrderWithout(ks, key, i);
    LeavesOverWithout(t, keys, i);
  }

  lemma LeafTotalAll(t: Json)
    requires t.Object?
    ensures LeafTotal(t, t.fields.Keys) == |LeavesOf(t)|
  {
  }

  // canonicalProfileState: validity, and on success the number of declared leaves.
  method CanonicalProfileState(t: Json) returns (r: Option<nat>)
    ensures r.Some? <==> ValidState(t)
    ensures r.Some? ==> r.value == |LeavesOf(t)|
  {
    hide LeafTotal, LeavesOf, ValidNested, KeyOrder;
    if !t.Object? || exists k | k in t.fields.Keys :: k != "profile" && k != "resumes" {
      return None;
    }
    var leaves := 0;
    ghost var visited: set<string> := {};
    LeafTotalEmpty(t);
    if "profile" in t.fields {
      if !t.fields["profile"].Object? {
        return None;
      }
      var count := ValidateAndCountObject(t.fields["profile"], 1);
      if count.None? {
        return None;
      }
      LeafTotalStep(t, visited, "profile");
      visited := visited + {"profile"};
      leaves := leaves + count.value;
    }
    if "resumes" in t.fields {
      var resumes := t.fields["resumes"];
      if !resumes.Object? {
        return None;
      }
      var count := CountResumes(resumes);
      if count.None? {
        return None;
      }
      LeafTotalStep(t, visited, "resumes");
      visited := visited + {"resumes"};
      leaves := leaves + count.value;
    }
    assert visited == t.fields.Keys;
    LeafTotalAll(t);
    r := Some(leaves);
  }

  method CountResumes(resumes: Json) returns (r: Option<nat>)
    requires resumes.Object?
    ensures r.Some? <==> ValidResumes(resumes)
    ensures r.Some? ==> r.value == |LeavesOf(resumes)|
  {
    var total := 0;
    var remaining := resumes.fields.Keys;
    ghost var visited: set<string> := {};
    LeafTotalEmpty(resumes);
    while remaining != {}
      invariant visited + remaining == resumes.fields.Keys && visited !! remaining
      invariant forall id :: id in visited ==>
        !Blank(id) && resumes.fields[id].Object? && ValidObject(resumes.fields[id], 1)
      invariant total == LeafTotal(resumes, visited)
      decreases remaining
    {
      var id :| id in remaining;
      if Blank(id) || !resumes.fields[id].Object? {
        return None;
      }
      var count := ValidateAndCountObject(resumes.fields[id], 1);
      if count.None? {
        return None;
      }
      LeafTotalStep(resumes, visited, id);
      total := total + count.value;
      remaining := remaining - {id};
      visited := visited + {id};
    }
    assert visited == resumes.fields.Keys;
    r := Some(total);
  }

  // ---- resources and observations ----

  datatype Resource = Resource(tag: string, profileId: string, state: Json, manifest: ManifestDigest)
  {
    ghost predicate Valid() {
      !Blank(tag) && profileId != "" && ValidState(state) && LeavesOf(state) != [] &&
      manifest == ManifestDigest(tag, profileId, state)
    }
  }

  datatype Observation = Observation(profileId: string, state: Json, digest: Digest, remoteRevision: string)
  {
    ghost predicate Valid() {
      profileId != "" && ValidState(state) && digest == Digest(state)
    }
  }

  ghost function ResourceOf(tag: string, profileId: string, state: Json): Resource {
    Resource(tag, profileId, state, ManifestDigest(tag, profileId, state))
  }

  method NewProfileStateResource(tag: string, profileId: string, state: Json) returns (r: Result<Resource, StateError>)
    ensures r.Ok? <==> ResourceOf(Trim(tag), profileId, state).Valid()
    ensures r.Ok? <==> !Blank(tag) && profileId != "" && ValidState(state) && LeavesOf(state) != []
    ensures r.Ok? ==> r.value == ResourceOf(Trim(tag), profileId, state)
    ensures r.Err? ==> r.error == if ValidState(state) && LeavesOf(state) == [] then NoLeaves else Invalid
  {
    TrimTwice(tag);
    var trimmed := Trim(tag);
    var leaves := CanonicalProfileState(state);
    if leaves.None? {
      return Err(Invalid);
    }
    if leaves.value == 0 {
      return Err(NoLeaves);
    }
    if Blank(trimmed) || profileId == "" {
      return Err(Invalid);
    }
    r := Ok(Resource(trimmed, profileId, state, ManifestDigest(trimmed, profileId, state)));
  }

  // ---- the diff ----

  // The change that turns one observed leaf into the desired value, if any is needed.
  function ChangeFor(path: string, before: Option<Json>, after: Json): Option<Change> {
    if before.Some? && before.value == after then None
    else if after.Null? && (before.None? || before.value.Null?) then None
    else Some(Change(path, if after.Null? then Clear else Set, before.Some?,
                     if before.Some? then Some(Digest(before.value)) else None, Digest(after)))
  }

  ghost function LookupIn(t: Option<Json>, p: Path): Option<Json> {
    if t.Some? then Lookup(t.value, p) else None
  }

  // Append if there is something to append.
  ghost function Append<T>(s: seq<T>, o: Option<T>): seq<T> {
    match o
    case None => s
    case Some(x) => s + [x]
  }

  // One change per leaf that is not already as desired, read by looking every
  // leaf up in both trees.
  ghost function Plan(base: Path, observed: Option<Json>, desired: Json, leaves: seq<Path>): seq<Change> {
    if leaves == [] then []
    else
      var p := leaves[|leaves| - 1];
      var before := Plan(base, observed, desired, leaves[..|leaves| - 1]);
      if Lookup(desired, p).None? then before
      else Append(before, ChangeFor(Pointer(base + p), LookupIn(observed, p), Lookup(desired, p).value))
  }

  lemma {:induction false} PlanConcat(base: Path, observed: Option<Json>, desired: Json, a: seq<Path>, b: seq<Path>)
    ensures Plan(base, observed, desired, a + b) == Plan(base, observed, desired, a) + Plan(base, observed, desired, b)
    decreases |b|
  {
    if b == [] {
      assert a + b == a;
    } else {
      var last := |b| - 1;
      var p := b[last];
      assert (a + b)[..|a + b| - 1] == a + b[..last];
      PlanConcat(base, observed, desired, a, b[..last]);
      if Lookup(desired, p).Some? {
        AppendConcat(Plan(base, observed, desired, a), Plan(base, observed, desired, b[..last]),
          ChangeFor(Pointer(base + p), LookupIn(observed, p), Lookup(desired, p).value));
      }
    }
  }

  lemma AppendConcat<T>(a: seq<T>, b: seq<T>, o: Option<T>)
    ensures a + Append(b, o) == Append(a + b, o)
  {
    if o.Some? {
      assert a + (b + [o.value]) == a + b + [o.value];
    }
  }

  function FieldOf(observed: Option<Json>, key: string): Option<Json> {
    if observed.Some? && observed.value.Object? && key in observed.value.fields
    then Some(observed.value.fields[key]) else None
  }

  // Descending by one key sees the same values as looking up the longer path.
  lemma {:induction false} PlanUnder(base: Path, observed: Option<Json>, desired: Json, key: string, leaves: seq<Path>)
    requires desired.Object? && key in desired.fields
    ensures Plan(base, observed, desired, Under(key, leaves)) ==
            Plan(base + [key], FieldOf(observed, key), desired.fields[key], leaves)
    decreases |leaves|
  {
    if leaves != [] {
      var last := |leaves| - 1;
      var p := leaves[last];
      assert Under(key, leaves)[..last] == Under(key, leaves[..last]);
      PlanUnder(base, observed, desired, key, leaves[..last]);
      var q := Under(key, leaves)[last];
      assert q == [key] + p && q[1..] == p;
      assert base + q == base + [key] + p;
    }
  }

  lemma DiffStep(base: Path, observed: Option<Json>, desired: Json, keys: seq<string>, index: nat)
    requires desired.Object? && forall k :: k in keys ==> k in desired.fields
    requires index < |keys|
    ensures keys[index] in desired.fields
    ensures Plan(base, observed, desired, LeavesOver(desired, keys[..index + 1])) ==
            Plan(base, observed, desired, LeavesOver(desired, keys[..index])) +
            Plan(base + [keys[index]], FieldOf(observed, keys[index]), desired.fields[keys[index]],
              LeavesOf(desired.fields[keys[index]]))
  {
    var key := keys[index];
    assert key in keys;
    assert keys[..index + 1][..index] == keys[..index];
    PlanConcat(base, observed, desired, LeavesOver(desired, keys[..index]), Under(key, LeavesOf(desired.fields[key])));
    PlanUnder(base, observed, desired, key, LeavesOf(desired.fields[key]));
  }

  // diffDeclaredValue appends to a slice it is handed by reference and walks both
  // trees together.
  class ChangeList {
    var changes: seq<Change>

    constructor ()
      ensures changes == []
    {
      changes := [];
    }

    method DiffDeclaredValue(ghost base: Path, path: string, observed: Option<Json>, desired: Json)
      requires path == Pointer(base)
      modifies this
      ensures changes == old(changes) + Plan(base, observed, desired, LeavesOf(desired))
      decreases desired
    {
      if desired.Object? {
        DiffFields(base, path, observed, desired);
        return;
      }
      ghost var plan := ChangeFor(path, observed, desired);
      assert Plan(base, observed, desired, [[]]) == Append([], plan) by {
        assert base + [] == base;
        var root: seq<Path> := [[]];
        assert root[..0] == [];
        assert Plan(base, observed, desired, []) == [];
      }
      if observed.Some? && observed.value == desired {
        return;
      }
      var operation := Set;
      if desired.Null? {
        operation := Clear;
        if observed.None? || observed.value.Null? {
          return;
        }
      }
      var change := Change(path, operation, observed.Some?, None, Digest(desired));
      if observed.Some? {
        change := change.(beforeDigest := Some(Digest(observed.value)));
      }
      changes := changes + [change];
    }

    method DiffFields(ghost base: Path, path: string, observed: Option<Json>, desired: Json)
      requires desired.Object? && path == Pointer(base)
      modifies this
      ensures changes == old(changes) + Plan(base, observed, desired, LeavesOf(desired))
      decreases desired, 0
    {
      var keys := SortedKeys(desired.fields);
      ghost var start := changes;
      ghost var added: seq<Change> := [];
      var index := 0;
      while index < |keys|
        invariant 0 <= index <= |keys|
        invariant added == Plan(base, observed, desired, LeavesOver(desired, keys[..index]))
        invariant changes == start + added
      {
        var key := keys[index];
        PointerExtend(base, key);
        DiffStep(base, observed, desired, keys, index);
        ghost var below := Plan(base + [key], FieldOf(observed, key), desired.fields[key],
          LeavesOf(desired.fields[key]));
        DiffDeclaredValue(base + [key], path + "/" + EscapeSegment(key), FieldOf(observed, key), desired.fields[key]);
        ConcatAssociative(start, added, below);
        added := added + below;
        index := index + 1;
      }
      assert keys[..index] == keys;
    }
  }

  // The sorted plan for one observation.
  ghost function PlannedChanges(observed: Json, desired: Json): seq<Change> {
    SortBy(Plan([], Some(observed), desired, LeavesOf(desired)), ChangePath)
  }

  method DiffProfileState(observed: Json, desired: Json) returns (r: Result<seq<Change>, StateError>)
    ensures |PlannedChanges(observed, desired)| <= MAXIMUM_CHANGES ==> r == Ok(PlannedChanges(observed, desired))
    ensures |PlannedChanges(observed, desired)| > MAXIMUM_CHANGES ==> r == Err(TooManyChanges)
  {
    var list := new ChangeList();
    list.DiffDeclaredValue([], "", Some(observed), desired);
    ghost var plan := Plan([], Some(observed), desired, LeavesOf(desired));
    assert list.changes == plan;
    assert |SortBy(plan, ChangePath)| == |plan| by {
      SameMultisetSameElements(SortBy(plan, ChangePath), plan);
    }
    if |list.changes| > MAXIMUM_CHANGES {
      return Err(TooManyChanges);
    }
    r := Ok(SortBy(list.changes, ChangePath));
  }

  // ---- proposals ----

  datatype ProposalStatus = ProposalPlanned | ProposalNoChanges

  // The digest over the inputs of a proposal, taken to be injective.
  datatype ProposalKey = ProposalKey(
    resourceTag: string, profileId: string, manifest: ManifestDigest, observed: Digest, remoteRevision: string)

  datatype Proposal = Proposal(
    id: string, resourceTag: string, profileId: string, status: ProposalStatus,
    manifest: ManifestDigest, observedDigest: Digest, desiredDigest: Digest, remoteRevision: string,
    desired: Json, changes: seq<Change>, key: ProposalKey)
  {
    ghost predicate Valid() {
      id != "" && !Blank(resourceTag) && profileId != "" &&
      ValidState(desired) && LeavesOf(desired) != [] && desiredDigest == Digest(desired) &&
      |changes| <= MAXIMUM_CHANGES && (status == ProposalNoChanges <==> changes == []) &&
      ValidChanges(changes) && key == KeyOf(this)
    }
  }

  function KeyOf(p: Proposal): ProposalKey {
    ProposalKey(p.resourceTag, p.profileId, p.manifest, p.observedDigest, p.remoteRevision)
  }

  // Sorted, addressed and consistent about presence: the loop at the end of
  // ProfileStateProposal.Validate.
  ghost predicate ValidChanges(changes: seq<Change>) {
    forall i :: 0 <= i < |changes| ==> ValidChangeAt(changes, i)
  }

  ghost predicate ValidChangeAt(changes: seq<Change>, i: nat)
    requires i < |changes|
  {
    Less(if i == 0 then "" else changes[i - 1].path, changes[i].path) &&
    changes[i].beforePresent == changes[i].beforeDigest.Some?
  }

  method ValidateChanges(changes: seq<Change>) returns (ok: bool)
    ensures ok <==> ValidChanges(changes)
  {
    var previous := "";
    for i := 0 to |changes|
      invariant previous == if i == 0 then "" else changes[i - 1].path
      invariant forall j :: 0 <= j < i ==> ValidChangeAt(changes, j)
    {
      var change := changes[i];
      assert ValidChangeAt(changes, i) <==>
        Less(previous, change.path) && change.beforePresent == change.beforeDigest.Some?;
      if change.path == "" || !Less(previous, change.path) || change.beforePresent != change.beforeDigest.Some? {
        return false;
      }
      previous := change.path;
    }
    ok := true;
  }

  ghost function ProposalOf(id: string, resource: Resource, observation: Observation): Proposal {
    var changes := PlannedChanges(observation.state, resource.state);
    Proposal(id, resource.tag, resource.profileId, if changes == [] then ProposalNoChanges else ProposalPlanned,
             resource.manifest, observation.digest, Digest(resource.state), observation.remoteRevision,
             resource.state, changes,
             ProposalKey(resource.tag, resource.profileId, resource.manifest, observation.digest,
               observation.remoteRevision))
  }

  method ValidateProposal(p: Proposal) returns (ok: bool)
    ensures ok <==> p.Valid()
  {
    if p.id == "" || Blank(p.resourceTag) || p.profileId == "" {
      return false;
    }
    var leaves := CanonicalProfileState(p.desired);
    if leaves.None? || leaves.value == 0 || p.desiredDigest != Digest(p.desired) || |p.changes| > MAXIMUM_CHANGES {
      return false;
    }
    if (p.status == ProposalNoChanges && |p.changes| != 0) || (p.status == ProposalPlanned && |p.changes| == 0) {
      return false;
    }
    var changesValid := ValidateChanges(p.changes);
    ok := changesValid && p.key == KeyOf(p);
  }

  method ValidateObservation(o: Observation) returns (ok: bool)
    ensures ok <==> o.Valid()
  {
    var leaves := CanonicalProfileState(o.state);
    ok := o.profileId != "" && leaves.Some? && o.digest == Digest(o.state);
  }

  method ValidateResource(resource: Resource) returns (ok: bool)
    ensures ok <==> resource.Valid()
  {
    if Blank(resource.tag) || resource.profileId == "" {
      return false;
    }
    var leaves := CanonicalProfileState(resource.state);
    ok := leaves.Some? && leaves.value != 0 &&
      resource.manifest == ManifestDigest(resource.tag, resource.profileId, resource.state);
  }

  // ---- classification on every retry ----

  predicate HoldsBefore(change: Change, now: Option<Json>) {
    now.Some? == change.beforePresent &&
    (now.Some? ==> change.beforeDigest == Some(Digest(now.value)))
  }

  datatype Verdict = Done | Waiting(change: Change) | Conflict

  // A field is done when it is as desired, waiting when it still holds the planned
  // before value, and in conflict when it holds neither.
  function Judge(change: Option<Change>, now: Option<Json>, after: Json): Verdict {
    if Matches(now, after) then Done
    else if change.Some? && HoldsBefore(change.value, now) then Waiting(change.value)
    else Conflict
  }

  function Entry(table: map<string, Change>, path: string): Option<Change> {
    if path in table then Some(table[path]) else None
  }

  ghost function VerdictAt(table: map<string, Change>, desired: Json, observed: Json, path: string): Verdict {
    if PointerValue(desired, path).None? then Conflict
    else Judge(Entry(table, path), PointerValue(observed, path), PointerValue(desired, path).value)
  }

  // The changes still waiting, in path order; None once a field is in conflict.
  ghost function Classify(table: map<string, Change>, desired: Json, observed: Json,
      paths: seq<string>): Option<seq<Change>> {
    if paths == [] then Some([])
    else
      var last := paths[|paths| - 1];
      match Classify(table, desired, observed, paths[..|paths| - 1])
      case None => None
      case Some(pending) =>
        match VerdictAt(table, desired, observed, last)
        case Done => Some(pending)
        case Waiting(change) => Some(pending + [change])
        case Conflict => None
  }

  // The changes of a valid proposal by path.
  ghost function TableOf(changes: seq<Change>): map<string, Change> {
    if changes == [] then map[]
    else TableOf(changes[..|changes| - 1])[changes[|changes| - 1].path := changes[|changes| - 1]]
  }

  ghost function Remaining(p: Proposal, observed: Json): Option<seq<Change>> {
    Classify(TableOf(p.changes), p.desired, observed, DeclaredPaths(p.desired))
  }

  method IndexChanges(changes: seq<Change>) returns (table: map<string, Change>)
    ensures table == TableOf(changes)
  {
    table := map[];
    assert changes[..0] == [];
    for i := 0 to |changes|
      invariant table == TableOf(changes[..i])
    {
      assert changes[..i + 1][..i] == changes[..i];
      table := table[changes[i].path := changes[i]];
    }
    assert changes[..|changes|] == changes;
  }

  lemma ClassifyStep(table: map<string, Change>, desired: Json, observed: Json, paths: seq<string>, i: nat)
    requires i < |paths|
    ensures Classify(table, desired, observed, paths[..i + 1]) ==
      match Classify(table, desired, observed, paths[..i])
      case None => None
      case Some(pending) =>
        match VerdictAt(table, desired, observed, paths[i])
        case Done => Some(pending)
        case Waiting(change) => Some(pending + [change])
        case Conflict => None
  {
    assert paths[..i + 1][..i] == paths[..i];
  }

  // A conflict on the way settles the whole classification.
  lemma {:induction false} ClassifyStops(table: map<string, Change>, desired: Json, observed: Json,
      paths: seq<string>, i: nat)
    requires i <= |paths|
    requires Classify(table, desired, observed, paths[..i]).None?
    ensures Classify(table, desired, observed, paths).None?
    decreases |paths| - i
  {
    if i == |paths| {
      assert paths[..i] == paths;
    } else {
      ClassifyStep(table, desired, observed, paths, i);
      ClassifyStops(table, desired, observed, paths, i + 1);
    }
  }

  // One declared field: done, waiting for its planned change, or in conflict.
  method ClassifyField(table: map<string, Change>, desired: Json, observed: Json, path: string)
    returns (r: Result<Option<Change>, StateError>)
    requires path in DeclaredPaths(desired)
    ensures r == match VerdictAt(table, desired, observed, path)
                 case Done => Ok(None)
                 case Waiting(change) => Ok(Some(change))
                 case Conflict => Err(StateChanged(path))
  {
    ghost var leaf := LeafOfPointer(desired, path);
    var desiredValue := JsonPointerValue(desired, path);
    // A declared path is never missing from the desired state.
    assert desiredValue.Some?;
    var observedValue := JsonPointerValue(observed, path);
    var verdict := JudgeField(table, path, observedValue, desiredValue.value);
    match verdict
    case Done => r := Ok(None);
    case Waiting(change) => r := Ok(Some(change));
    case Conflict => r := Err(StateChanged(path));
  }

  method JudgeField(table: map<string, Change>, path: string, observed: Option<Json>, after: Json)
      returns (verdict: Verdict)
    ensures verdict == Judge(Entry(table, path), observed, after)
  {
    if path !in table {
      return if Matches(observed, after) then Done else Conflict;
    }
    if Matches(observed, after) {
      return Done;
    }
    var change := table[path];
    var beforeMatches := observed.Some? == change.beforePresent;
    if observed.Some? {
      beforeMatches := beforeMatches && change.beforeDigest == Some(Digest(observed.value));
    }
    verdict := if beforeMatches then Waiting(change) else Conflict;
  }

  // The loop over the declared fields: the first conflict ends it, otherwise the
  // fields still waiting for their change are collected.
  method ClassifyFields(table: map<string, Change>, desired: Json, observed: Json, paths: seq<string>)
    returns (r: Result<seq<Change>, StateError>)
    requires forall j :: 0 <= j < |paths| ==> paths[j] in DeclaredPaths(desired)
    ensures r.Ok? <==> Classify(table, desired, observed, paths).Some?
    ensures r.Ok? ==> Classify(table, desired, observed, paths) == Some(r.value)
    ensures r.Err? ==> r.error.StateChanged? && r.error.path in paths
    ensures r.Err? ==> VerdictAt(table, desired, observed, r.error.path) == Conflict
  {
    var pending: seq<Change> := [];
    for i := 0 to |paths|
      invariant Classify(table, desired, observed, paths[..i]) == Some(pending)
    {
      ClassifyStep(table, desired, observed, paths, i);
      var outcome := ClassifyField(table, desired, observed, paths[i]);
      if outcome.Err? {
        ClassifyStops(table, desired, observed, paths, i + 1);
        return Err(outcome.error);
      }
      if outcome.value.Some? {
        pending := pending + [outcome.value.value];
      }
    }
    assert paths[..|paths|] == paths;
    r := Ok(pending);
  }

  method ChangesToApply(p: Proposal, o: Observation) returns (r: Result<seq<Change>, StateError>)
    ensures !p.Valid() || !o.Valid() ==> r == Err(Invalid)
    ensures p.Valid() && o.Valid() && p.profileId != o.profileId ==> r == Err(ProfilesDiffer)
    ensures p.Valid() && o.Valid() && p.profileId == o.profileId ==>
      match Remaining(p, o.state)
      case Some(pending) => r == Ok(pending)
      case None => r.Err? && r.error.StateChanged? && r.error.path in DeclaredPaths(p.desired) &&
                   VerdictAt(TableOf(p.changes), p.desired, o.state, r.error.path) == Conflict
  {
    var proposalValid := ValidateProposal(p);
    if !proposalValid {
      return Err(Invalid);
    }
    var observationValid := ValidateObservation(o);
    if !observationValid {
      return Err(Invalid);
    }
    if p.profileId != o.profileId {
      return Err(ProfilesDiffer);
    }
    var table := IndexChanges(p.changes);
    var paths := DeclaredPathsOf(p.desired);
    r := ClassifyFields(table, p.desired, o.state, paths);
  }
}
