// One-shot overrides of core/profile_state.go: replacing declared leaves without
// touching anything else.
module Overrides {
  import opened Wrappers
  import opened Sorting
  import opened JsonPointer
  import opened JsonTree
  import opened Leaves
  import opened ProfileState
  import opened Text

  datatype Override = Override(path: string, value: Json)

  // The state after replacing values one after another.
  ghost function Overridden(state: Json, overrides: seq<Override>): Option<Json> {
    if overrides == [] then Some(state)
    else
      var last := overrides[|overrides| - 1];
      match Overridden(state, overrides[..|overrides| - 1])
      case None => None
      case Some(t) => SetPointerValue(t, last.path, last.value)
  }

  ghost function DeclaredSet(state: Json): set<string> {
    set path | path in DeclaredPaths(state)
  }

  ghost function NamedBy(overrides: seq<Override>): set<string> {
    if overrides == [] then {}
    else NamedBy(overrides[..|overrides| - 1]) + {overrides[|overrides| - 1].path}
  }

  // Every override names a declared leaf, none twice, and puts no object there.
  ghost predicate Admissible(declared: set<string>, overrides: seq<Override>) {
    overrides == [] ||
    var init := overrides[..|overrides| - 1];
    var last := overrides[|overrides| - 1];
    Admissible(declared, init) && last.path in declared && last.path !in NamedBy(init) && !last.value.Object?
  }

  lemma {:induction false} NamedByMeans(overrides: seq<Override>, path: string)
    ensures path in NamedBy(overrides) <==> exists i :: 0 <= i < |overrides| && overrides[i].path == path
  {
    if overrides != [] {
      var n := |overrides| - 1;
      NamedByMeans(overrides[..n], path);
      if i :| 0 <= i < |overrides| && overrides[i].path == path {
        assert i < n ==> overrides[..n][i].path == path;
      }
      if path in NamedBy(overrides[..n]) {
        var i :| 0 <= i < n && overrides[..n][i].path == path;
        assert overrides[i].path == path;
      }
    }
  }

  ghost predicate NamesOnce(overrides: seq<Override>) {
    forall i, j :: 0 <= i < j < |overrides| ==> overrides[i].path != overrides[j].path
  }

  lemma NamesOnceLast(overrides: seq<Override>)
    requires overrides != []
    ensures NamesOnce(overrides) <==>
      NamesOnce(overrides[..|overrides| - 1]) &&
        overrides[|overrides| - 1].path !in NamedBy(overrides[..|overrides| - 1])
  {
    var n := |overrides| - 1;
    var init, last := overrides[..n], overrides[n].path;
    NamedByMeans(init, last);
    if i :| 0 <= i < n && init[i].path == last {
      assert overrides[i].path == overrides[n].path;
    }
  }

  lemma {:induction false} AdmissibleMeans(declared: set<string>, overrides: seq<Override>)
    ensures Admissible(declared, overrides) <==>
      (forall i :: 0 <= i < |overrides| ==> overrides[i].path in declared && !overrides[i].value.Object?) &&
      NamesOnce(overrides)
  {
    if overrides != [] {
      var n := |overrides| - 1;
      AdmissibleMeans(declared, overrides[..n]);
      NamesOnceLast(overrides);
      hide NamesOnce, NamedBy;
      assert forall i :: 0 <= i < n ==> overrides[..n][i] == overrides[i];
    }
  }

  // Replacing one leaf by another value that is not an object.
  lemma ReplaceLeaf(t: Json, p: Path, value: Json, q: Path)
    requires IsLeaf(t, p) && p != [] && !value.Object?
    ensures var t' := WriteAt(t, p, value);
      Lookup(t', p) == Some(value) &&
      (!IsPrefix(q, p) ==> Lookup(t', q) == Lookup(t, q)) &&
      (IsLeaf(t', q) <==> IsLeaf(t, q))
  {
    var t' := WriteAt(t, p, value);
    LookupAfterWrite(t, p, value);
    if Separate(p, q) {
      LookupBesideWrite(t, p, value, q);
    } else if IsPrefix(q, p) {
      var rest := p[|q|..];
      assert p == q + rest;
      LookupSplit(t, q, rest);
      LookupSplit(t', q, rest);
      if rest == [] {
        assert p == q;
      }
    } else {
      var rest := q[|p|..];
      assert q == p + rest;
      LookupSplit(t, p, rest);
      LookupSplit(t', p, rest);
    }
  }

  lemma SameLeavesSamePaths(t: Json, t': Json)
    requires forall p :: IsLeaf(t, p) <==> IsLeaf(t', p)
    ensures DeclaredPaths(t) == DeclaredPaths(t')
  {
    DeclaredPathsExact(t);
    DeclaredPathsExact(t');
    forall path ensures path in DeclaredPaths(t) <==> path in DeclaredPaths(t') {
      if path in DeclaredPaths(t) {
        var p := LeafOfPointer(t, path);
        LeafDeclared(t', p);
      }
      if path in DeclaredPaths(t') {
        var p := LeafOfPointer(t', path);
        LeafDeclared(t, p);
      }
    }
    SortedUnique(DeclaredPaths(t), DeclaredPaths(t'), Identity);
  }

  // One override on a tree that still declares its path.
  lemma OverrideOne(t: Json, path: string, value: Json)
    requires t.Object? && path in DeclaredPaths(t) && !value.Object?
    ensures Segments(path).Some?
    ensures SetPointerValue(t, path, value) == Some(WriteAt(t, Segments(path).value, value))
    ensures var t' := WriteAt(t, Segments(path).value, value);
      t'.Object? && DeclaredPaths(t') == DeclaredPaths(t) && PointerValue(t', path) == Some(value) &&
      forall q :: !IsPrefix(q, Segments(path).value) ==> Lookup(t', q) == Lookup(t, q)
  {
    var p := LeafOfPointer(t, path);
    assert p != [];
    SetExistingIsWrite(t, p, value);
    var t' := WriteAt(t, p, value);
    forall q ensures (IsLeaf(t', q) <==> IsLeaf(t, q)) && (!IsPrefix(q, p) ==> Lookup(t', q) == Lookup(t, q)) {
      ReplaceLeaf(t, p, value, q);
    }
    ReplaceLeaf(t, p, value, p);
    LookupPointer(t', p);
    SameLeavesSamePaths(t, t');
  }

  // Path q does not lead to an overridden value.
  ghost predicate Apart(overrides: seq<Override>, q: Path) {
    forall i :: 0 <= i < |overrides| ==>
      Segments(overrides[i].path).Some? && !IsPrefix(q, Segments(overrides[i].path).value)
  }

  ghost predicate HoldsValues(t: Json, overrides: seq<Override>) {
    forall i :: 0 <= i < |overrides| ==> PointerValue(t, overrides[i].path) == Some(overrides[i].value)
  }

  ghost predicate Undisturbed(state: Json, t: Json, overrides: seq<Override>) {
    forall q :: Apart(overrides, q) ==> Lookup(t, q) == Lookup(state, q)
  }

  lemma KeepsOtherValue(t: Json, path: string, value: Json, other: string)
    requires t.Object? && path in DeclaredPaths(t) && !value.Object?
    requires other in DeclaredPaths(t) && other != path
    ensures Segments(path).Some?
    ensures PointerValue(WriteAt(t, Segments(path).value, value), other) == PointerValue(t, other)
  {
    var at := LeafOfPointer(t, path);
    var p := LeafOfPointer(t, other);
    LeavesArePrefixFree(t, p, at);
    OverrideOne(t, path, value);
    LookupPointer(WriteAt(t, at, value), p);
  }

  lemma ReplaceOneMore(state: Json, init: seq<Override>, last: Override, t: Json)
    requires t.Object? && DeclaredPaths(t) == DeclaredPaths(state)
    requires HoldsValues(t, init) && Undisturbed(state, t, init)
    requires forall i :: 0 <= i < |init| ==> init[i].path in DeclaredSet(state) && init[i].path != last.path
    requires last.path in DeclaredSet(state) && !last.value.Object?
    ensures SetPointerValue(t, last.path, last.value).Some?
    ensures var t' := SetPointerValue(t, last.path, last.value).value;
      t'.Object? && DeclaredPaths(t') == DeclaredPaths(state) &&
      HoldsValues(t', init + [last]) && Undisturbed(state, t', init + [last])
  {
    OverrideOne(t, last.path, last.value);
    var t' := SetPointerValue(t, last.path, last.value).value;
    var all := init + [last];
    forall i | 0 <= i < |all| ensures PointerValue(t', all[i].path) == Some(all[i].value) {
      if i < |init| {
        assert all[i] == init[i];
        KeepsOtherValue(t, last.path, last.value, init[i].path);
      }
    }
    forall q | Apart(all, q) ensures Lookup(t', q) == Lookup(state, q) {
      assert Apart(init, q) by {
        forall i | 0 <= i < |init|
          ensures Segments(init[i].path).Some? && !IsPrefix(q, Segments(init[i].path).value) {
          assert all[i] == init[i];
        }
      }
      assert all[|init|] == last;
    }
  }

  lemma NothingReplaced(state: Json)
    ensures HoldsValues(state, []) && Undisturbed(state, state, [])
  {
  }

  // Main result on overrides: they always go through, put exactly the given values
  // at the named leaves, leave every other lookup alone, and keep the declared paths.
  lemma {:induction false} OverridesReplaceExactly(state: Json, overrides: seq<Override>)
    requires state.Object? && Admissible(DeclaredSet(state), overrides)
    ensures Overridden(state, overrides).Some?
    ensures Overridden(state, overrides).value.Object?
    ensures DeclaredPaths(Overridden(state, overrides).value) == DeclaredPaths(state)
    ensures HoldsValues(Overridden(state, overrides).value, overrides)
    ensures Undisturbed(state, Overridden(state, overrides).value, overrides)
  {
    hide HoldsValues, Undisturbed, DeclaredPaths, SetPointerValue;
    if overrides == [] {
      NothingReplaced(state);
    } else {
      var init := overrides[..|overrides| - 1];
      var last := overrides[|overrides| - 1];
      assert overrides == init + [last];
      OverridesReplaceExactly(state, init);
      AdmissibleMeans(DeclaredSet(state), overrides);
      ReplaceOneMore(state, init, last, Overridden(state, init).value);
    }
  }

  // ---- when the derived state is valid ----

  // How deep validation is at a leaf: resumes are validated one by one.
  ghost function LeafDepth(p: Path): nat
    requires p != []
  {
    if p[0] == "resumes" then |p| - 1 else |p|
  }

  // A leaf seen from the root's field it lies in or is.
  lemma LeafBelow(t: Json, p: Path)
    requires t.Object? && IsLeaf(t, p) && p != []
    ensures p[0] in t.fields && Lookup(t.fields[p[0]], p[1..]) == Lookup(t, p)
    ensures |p| == 1 ==> p[1..] == [] && Lookup(t, p) == Some(t.fields[p[0]]) && !t.fields[p[0]].Object?
    ensures |p| > 1 ==> t.fields[p[0]].Object? && IsLeaf(t.fields[p[0]], p[1..])
  {
    assert Lookup(t.fields[p[0]], p[1..]) == Lookup(t, p);
  }

  lemma FieldWrittenBelow(t: Json, p: Path, value: Json)
    requires t.Object? && p != [] && p[0] in t.fields
    ensures WriteAt(t, p, value) == Object(t.fields[p[0] := WriteAt(t.fields[p[0]], p[1..], value)])
    ensures |p| == 1 ==> WriteAt(t, p, value) == Object(t.fields[p[0] := value])
  {
    if |p| == 1 {
      assert p[1..] == [];
    }
  }

  ghost predicate OtherFieldsValid(t: Json, key: string, depth: nat)
    requires t.Object?
  {
    forall k :: k in t.fields && k != key ==> ValidField(k, t.fields[k], depth + 1)
  }

  lemma OneFieldOfObject(t: Json, key: string, depth: nat)
    requires t.Object? && key in t.fields
    ensures ValidObject(t, depth) <==>
      depth <= MAXIMUM_DEPTH && OtherFieldsValid(t, key, depth) && ValidField(key, t.fields[key], depth + 1)
  {
  }

  lemma SameOtherFields(t: Json, t': Json, key: string, depth: nat)
    requires t.Object? && t'.Object? && key in t.fields && key in t'.fields
    requires t'.fields == t.fields[key := t'.fields[key]]
    ensures OtherFieldsValid(t', key, depth) <==> OtherFieldsValid(t, key, depth)
  {
    assert forall k :: k in t.fields && k != key ==> k in t'.fields && t'.fields[k] == t.fields[k];
    assert forall k :: k in t'.fields && k != key ==> k in t.fields && t'.fields[k] == t.fields[k];
  }

  lemma FieldMeans(key: string, v: Json, depth: nat)
    ensures ValidField(key, v, depth) <==> !Blank(key) && key != "processor" && ValidNested(v, depth)
    ensures v.Object? ==> (ValidNested(v, depth) <==> ValidObject(v, depth))
  {
  }

  // Exchanging one leaf for another exchanges their parts in the validity of the tree.
  lemma {:induction false} ExchangeInObject(t: Json, p: Path, value: Json, depth: nat)
    requires t.Object? && IsLeaf(t, p) && p != [] && !value.Object?
    ensures WriteAt(t, p, value).Object?
    ensures ValidObject(WriteAt(t, p, value), depth) && ValidNested(Lookup(t, p).value, depth + |p|) <==>
      ValidObject(t, depth) && ValidNested(value, depth + |p|)
    decreases |p|
  {
    hide ValidObject, ValidNested, ValidField, OtherFieldsValid, WriteAt;
    var t' := WriteAt(t, p, value);
    var key := p[0];
    LeafBelow(t, p);
    FieldWrittenBelow(t, p, value);
    if |p| > 1 {
      ExchangeInObject(t.fields[key], p[1..], value, depth + 1);
    }
    SameOtherFields(t, t', key, depth);
    FieldMeans(key, t.fields[key], depth + 1);
    FieldMeans(key, t'.fields[key], depth + 1);
    OneFieldOfObject(t, key, depth);
    OneFieldOfObject(t', key, depth);
  }

  ghost predicate OtherResumesValid(resumes: Json, other: string)
    requires resumes.Object?
  {
    forall id :: id in resumes.fields && id != other ==>
      !Blank(id) && resumes.fields[id].Object? && ValidObject(resumes.fields[id], 1)
  }

  lemma OneResume(resumes: Json, id: string)
    requires resumes.Object? && id in resumes.fields
    ensures ValidResumes(resumes) <==>
      OtherResumesValid(resumes, id) && !Blank(id) && resumes.fields[id].Object? && ValidObject(resumes.fields[id], 1)
  {
  }

  lemma SameOtherResumes(resumes: Json, after: Json, id: string)
    requires resumes.Object? && after.Object? && id in resumes.fields && id in after.fields
    requires after.fields == resumes.fields[id := after.fields[id]]
    ensures OtherResumesValid(after, id) <==> OtherResumesValid(resumes, id)
  {
    hide ValidObject, Blank;
    assert forall k :: k in resumes.fields && k != id ==> k in after.fields && after.fields[k] == resumes.fields[k];
    assert forall k :: k in after.fields && k != id ==> k in resumes.fields && after.fields[k] == resumes.fields[k];
  }

  lemma ExchangeInResumes(resumes: Json, p: Path, value: Json)
    requires resumes.Object? && IsLeaf(resumes, p) && p != [] && !value.Object?
    ensures WriteAt(resumes, p, value).Object?
    ensures ValidResumes(WriteAt(resumes, p, value)) && ValidNested(Lookup(resumes, p).value, |p|) <==>
      ValidResumes(resumes) && ValidNested(value, |p|)
  {
    hide ValidObject, ValidNested, ValidResumes, OtherResumesValid, WriteAt;
    var id := p[0];
    var after := WriteAt(resumes, p, value);
    LeafBelow(resumes, p);
    FieldWrittenBelow(resumes, p, value);
    OneResume(resumes, id);
    OneResume(after, id);
    SameOtherResumes(resumes, after, id);
    if |p| > 1 {
      ExchangeInObject(resumes.fields[id], p[1..], value, 1);
    }
  }

  lemma ExchangeInState(t: Json, p: Path, value: Json)
    requires t.Object? && IsLeaf(t, p) && p != [] && !value.Object?
    ensures WriteAt(t, p, value).Object?
    ensures ValidState(WriteAt(t, p, value)) && ValidNested(Lookup(t, p).value, LeafDepth(p)) <==>
      ValidState(t) && ValidNested(value, LeafDepth(p))
  {
    hide ValidObject, ValidNested, ValidResumes, WriteAt;
    var t' := WriteAt(t, p, value);
    LeafBelow(t, p);
    FieldWrittenBelow(t, p, value);
    assert t'.fields.Keys == t.fields.Keys;
    assert forall k :: k in t.fields && k != p[0] ==> t'.fields[k] == t.fields[k];
    if |p| > 1 && p[0] == "profile" {
      ExchangeInObject(t.fields[p[0]], p[1..], value, 1);
    } else if |p| > 1 && p[0] == "resumes" {
      ExchangeInResumes(t.fields[p[0]], p[1..], value);
    }
  }

  lemma ChildIsValid(t: Json, key: string, depth: nat)
    requires t.Object? && key in t.fields && ValidObject(t, depth)
    ensures ValidNested(t.fields[key], depth + 1)
    ensures t.fields[key].Object? ==> ValidObject(t.fields[key], depth + 1)
  {
    assert ValidField(key, t.fields[key], depth + 1);
  }

  lemma {:induction false} LeafOfObjectIsValid(t: Json, p: Path, depth: nat)
    requires t.Object? && IsLeaf(t, p) && p != [] && ValidObject(t, depth)
    ensures ValidNested(Lookup(t, p).value, depth + |p|)
    decreases |p|
  {
    LeafBelow(t, p);
    ChildIsValid(t, p[0], depth);
    hide ValidObject, ValidNested, IsLeaf;
    if |p| > 1 {
      LeafOfObjectIsValid(t.fields[p[0]], p[1..], depth + 1);
    }
  }

  lemma LeafOfStateIsValid(t: Json, p: Path)
    requires ValidState(t) && IsLeaf(t, p) && p != []
    ensures |p| > 1 && ValidNested(Lookup(t, p).value, LeafDepth(p))
  {
    LeafBelow(t, p);
    if p[0] == "profile" {
      LeafOfObjectIsValid(t.fields["profile"], p[1..], 1);
    } else {
      var resumes := t.fields["resumes"];
      LeafBelow(resumes, p[1..]);
      LeafOfObjectIsValid(resumes.fields[p[1]], p[1..][1..], 1);
    }
  }

  // Every value fits where it is put.
  ghost predicate ValuesFit(overrides: seq<Override>) {
    forall i :: 0 <= i < |overrides| ==> FitsItsPlace(overrides[i])
  }

  ghost predicate FitsItsPlace(override: Override) {
    Segments(override.path).Some? && Segments(override.path).value != [] &&
    ValidNested(override.value, LeafDepth(Segments(override.path).value))
  }

  // One more override of a leaf that still holds the registered value.
  lemma ValidAfterOneMore(state: Json, t: Json, last: Override)
    requires ValidState(state) && t.Object? && DeclaredPaths(t) == DeclaredPaths(state)
    requires last.path in DeclaredPaths(state) && !last.value.Object?
    requires PointerValue(t, last.path) == PointerValue(state, last.path)
    ensures SetPointerValue(t, last.path, last.value).Some?
    ensures ValidState(SetPointerValue(t, last.path, last.value).value) <==> ValidState(t) && FitsItsPlace(last)
  {
    OverrideOne(t, last.path, last.value);
    var p := LeafOfPointer(t, last.path);
    var q := LeafOfPointer(state, last.path);
    LeafOfStateIsValid(state, p);
    ExchangeInState(t, p, last.value);
  }

  lemma StillRegistered(state: Json, init: seq<Override>, last: Override, t: Json)
    requires state.Object? && t.Object? && Undisturbed(state, t, init)
    requires last.path in DeclaredPaths(state)
    requires forall i :: 0 <= i < |init| ==> init[i].path in DeclaredPaths(state) && init[i].path != last.path
    ensures PointerValue(t, last.path) == PointerValue(state, last.path)
  {
    var p := LeafOfPointer(state, last.path);
    forall i | 0 <= i < |init| ensures Segments(init[i].path).Some? && !IsPrefix(p, Segments(init[i].path).value) {
      var q := LeafOfPointer(state, init[i].path);
      LeavesArePrefixFree(state, p, q);
    }
    assert Apart(init, p);
    LookupPointer(t, p);
    LookupPointer(state, p);
  }

  // The overridden state is valid exactly when every value fits its own place.
  lemma {:induction false} OverriddenIsValidExactly(state: Json, overrides: seq<Override>)
    requires ValidState(state) && Admissible(DeclaredSet(state), overrides)
    ensures Overridden(state, overrides).Some?
    ensures ValidState(Overridden(state, overrides).value) <==> ValuesFit(overrides)
  {
    hide ValidState, FitsItsPlace, Undisturbed, HoldsValues, SetPointerValue, DeclaredPaths;
    if overrides != [] {
      var init := overrides[..|overrides| - 1];
      var last := overrides[|overrides| - 1];
      StateIsObject(state);
      OverriddenIsValidExactly(state, init);
      OverridesReplaceExactly(state, init);
      AdmissibleMeans(DeclaredSet(state), overrides);
      StillRegistered(state, init, last, Overridden(state, init).value);
      ValidAfterOneMore(state, Overridden(state, init).value, last);
      assert overrides == init + [last];
    }
  }

  lemma StateIsObject(state: Json)
    requires ValidState(state)
    ensures state.Object?
  {
  }

  // What a caller can check of a registered resource and the overrides one by one.
  ghost predicate Derivable(resource: Resource, overrides: seq<Override>) {
    resource.Valid() && overrides != [] && Admissible(DeclaredSet(resource.state), overrides) && ValuesFit(overrides)
  }

  lemma {:induction false} InadmissiblePrefix(declared: set<string>, overrides: seq<Override>, i: nat)
    requires i <= |overrides| && !Admissible(declared, overrides[..i])
    ensures !Admissible(declared, overrides)
    decreases |overrides| - i
  {
    if i == |overrides| {
      assert overrides[..i] == overrides;
    } else {
      assert overrides[..i + 1][..i] == overrides[..i];
      InadmissiblePrefix(declared, overrides, i + 1);
    }
  }

  // What an error says of the overrides.
  ghost predicate Blames(declaredPaths: seq<string>, overrides: seq<Override>, error: StateError) {
    match error
    case NotDeclared(path) =>
      path !in declaredPaths && exists i :: 0 <= i < |overrides| && overrides[i].path == path
    case DuplicateOverride(path) =>
      exists i, j :: 0 <= i < j < |overrides| && overrides[i].path == path && overrides[j].path == path
    case ObjectOverride(path) =>
      exists i :: 0 <= i < |overrides| && overrides[i].path == path && overrides[i].value.Object?
    case _ => false
  }

  // The loop of WithOverrides over a decoded copy of the state.
  method ReplaceLeaves(state: Json, declaredPaths: seq<string>, overrides: seq<Override>)
      returns (r: Result<Json, StateError>)
    requires state.Object? && declaredPaths == DeclaredPaths(state)
    ensures r.Ok? <==> Admissible(DeclaredSet(state), overrides)
    ensures r.Ok? ==> Overridden(state, overrides) == Some(r.value)
    ensures r.Err? ==> Blames(declaredPaths, overrides, r.error)
  {
    hide HoldsValues, Undisturbed, DeclaredPaths;
    var declared := set path | path in declaredPaths;
    var current := state;
    var seen: set<string> := {};
    for i := 0 to |overrides|
      invariant Admissible(declared, overrides[..i])
      invariant Overridden(state, overrides[..i]) == Some(current)
      invariant seen == NamedBy(overrides[..i])
    {
      var override := overrides[i];
      assert overrides[..i + 1][..i] == overrides[..i];
      if override.path !in declared {
        InadmissiblePrefix(declared, overrides, i + 1);
        return Err(NotDeclared(override.path));
      }
      if override.path in seen {
        NamedByMeans(overrides[..i], override.path);
        InadmissiblePrefix(declared, overrides, i + 1);
        return Err(DuplicateOverride(override.path));
      }
      seen := seen + {override.path};
      if override.value.Object? {
        InadmissiblePrefix(declared, overrides, i + 1);
        return Err(ObjectOverride(override.path));
      }
      OverridesReplaceExactly(state, overrides[..i + 1]);
      // A declared leaf can always be replaced.
      var replaced := SetPointerValue(current, override.path, override.value);
      current := replaced.value;
    }
    assert overrides[..|overrides|] == overrides;
    r := Ok(current);
  }

  // WithOverrides derives a new resource and leaves the registered one alone.
  method WithOverrides(resource: Resource, overrides: seq<Override>) returns (r: Result<Resource, StateError>)
    ensures r.Ok? <==> Derivable(resource, overrides)
    ensures r.Ok? ==> Overridden(resource.state, overrides).Some?
    ensures r.Ok? ==>
      r.value == ResourceOf(Trim(resource.tag), resource.profileId, Overridden(resource.state, overrides).value)
    ensures r.Ok? ==> DeclaredPaths(r.value.state) == DeclaredPaths(resource.state)
    ensures r.Ok? ==> HoldsValues(r.value.state, overrides) && Undisturbed(resource.state, r.value.state, overrides)
    ensures r.Ok? ==> r.value.Valid() && r.value.profileId == resource.profileId
    ensures r.Err? ==>
      if resource.Valid() && overrides != [] && !Admissible(DeclaredSet(resource.state), overrides)
      then Blames(DeclaredPaths(resource.state), overrides, r.error) else r.error == Invalid
  {
    hide HoldsValues, Undisturbed, DeclaredPaths, Admissible, ValidState, LeavesOf, Blames, Trim;
    var valid := ValidateResource(resource);
    if !valid || |overrides| == 0 {
      return Err(Invalid);
    }
    StateIsObject(resource.state);
    var declaredPaths := DeclaredPathsOf(resource.state);
    var replaced := ReplaceLeaves(resource.state, declaredPaths, overrides);
    if replaced.Err? {
      return Err(replaced.error);
    }
    OverridesReplaceExactly(resource.state, overrides);
    OverriddenIsValidExactly(resource.state, overrides);
    SameLeafCount(resource.state, replaced.value);
    r := NewProfileStateResource(resource.tag, resource.profileId, replaced.value);
    if r.Ok? {
      var derivedPaths := DeclaredPathsOf(r.value.state);
      // The ownership comparison that ends the source's function never fails.
      assert derivedPaths == declaredPaths;
    }
  }

  lemma SameLeafCount(t: Json, t': Json)
    requires DeclaredPaths(t) == DeclaredPaths(t')
    ensures |LeavesOf(t)| == |LeavesOf(t')|
  {
    SameMultisetSameElements(DeclaredPaths(t), Pointers([], LeavesOf(t)));
    SameMultisetSameElements(DeclaredPaths(t'), Pointers([], LeavesOf(t')));
  }
}
