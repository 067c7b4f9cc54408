// The remote account as the saga sees it: which part of its tree a set of writes
// may have touched, and what a reader reports about requested paths.
module Remote {
  import opened Wrappers
  import opened Sorting
  import opened JsonPointer
  import opened JsonTree
  import opened Leaves

  // What stands at one place of a tree, without what lies below it.
  datatype Shape = Absent | Branch | Leaf(value: Json)

  ghost function ShapeAt(t: Json, q: Path): Shape {
    match Lookup(t, q)
    case None => Absent
    case Some(v) => if v.Object? then Branch else Leaf(v)
  }

  lemma LookupField(t: Json, k: string)
    requires t.Object?
    ensures Lookup(t, [k]) == if k in t.fields then Some(t.fields[k]) else None
  {
    var p := [k];
    assert p[1..] == [];
    if k in t.fields {
      assert Lookup(t, p) == Lookup(t.fields[k], []);
    }
  }

  // Trees with the same shape everywhere are the same tree.
  lemma {:induction false} ShapesDetermineTree(t: Json, u: Json)
    requires forall q :: ShapeAt(t, q) == ShapeAt(u, q)
    ensures t == u
    decreases t
  {
    assert ShapeAt(t, []) == ShapeAt(u, []);
    if t.Object? {
      forall k ensures k in t.fields <==> k in u.fields {
        assert ShapeAt(t, [k]) == ShapeAt(u, [k]);
        LookupField(t, k);
        LookupField(u, k);
      }
      forall k | k in t.fields ensures t.fields[k] == u.fields[k] {
        forall q ensures ShapeAt(t.fields[k], q) == ShapeAt(u.fields[k], q) {
          assert ([k] + q)[1..] == q;
          assert ShapeAt(t, [k] + q) == ShapeAt(u, [k] + q);
        }
        ShapesDetermineTree(t.fields[k], u.fields[k]);
      }
      assert t.fields == u.fields;
    }
  }

  // Place q is neither one of the paths nor below one of them.
  ghost predicate Outside(paths: seq<string>, q: Path) {
    forall i :: 0 <= i < |paths| ==> Segments(paths[i]).Some? && !IsPrefix(Segments(paths[i]).value, q)
  }

  ghost predicate SameOutside(t: Json, u: Json, paths: seq<string>) {
    forall q :: Outside(paths, q) ==> ShapeAt(t, q) == ShapeAt(u, q)
  }

  // Removing a field keeps the objects above it.
  lemma {:induction false} BranchAboveRemove(t: Json, p: Path, q: Path)
    requires IsPrefix(q, p) && q != p && Lookup(t, q).Some? && Lookup(t, q).value.Object?
    ensures Lookup(RemoveAt(t, p), q).Some? && Lookup(RemoveAt(t, p), q).value.Object?
    decreases |p|
  {
    if q != [] {
      assert p[0] == q[0];
      assert |p| > 1;
      SeparateTail(q, p);
      BranchAboveRemove(t.fields[p[0]], p[1..], q[1..]);
    } else {
      assert p != [];
    }
  }

  lemma BranchAboveLeaf(t: Json, p: Path, q: Path)
    requires IsPrefix(q, p) && q != p && Lookup(t, p).Some?
    ensures ShapeAt(t, q) == Branch
  {
    assert p == q + p[|q|..];
    LookupSplit(t, q, p[|q|..]);
  }

  // Writing a field whose surroundings stand changes the shape only from that
  // field downwards.
  lemma WriteKeepsShapes(t: Json, t': Json, p: Path, value: Json, q: Path)
    requires Written(t, t', p, value) && !IsPrefix(p, q)
    requires IsPrefix(q, p) ==> ShapeAt(t, q) == Branch
    ensures ShapeAt(t', q) == ShapeAt(t, q)
  {
    if Separate(p, q) {
      WrittenEffect(t, t', p, value);
    } else {
      assert IsPrefix(q, p) && q != p;
      if t' == WriteAt(t, p, value) {
        LookupAfterWrite(t, p, value);
        BranchAboveLeaf(t', p, q);
      } else {
        BranchAboveRemove(t, p, q);
      }
    }
  }

  // What a reader reports: the values found at the requested paths and nothing else.
  ghost function Snapshot(remote: Json, paths: seq<string>): Json {
    if paths == [] then Object(map[])
    else
      var rest := Snapshot(remote, paths[..|paths| - 1]);
      var last := paths[|paths| - 1];
      if Segments(last).Some? && PointerValue(remote, last).Some?
      then WriteAt(rest, Segments(last).value, PointerValue(remote, last).value)
      else rest
  }

  // The paths address separate, non-root places.
  ghost predicate SeparatePaths(paths: seq<string>) {
    (forall i :: 0 <= i < |paths| ==> Segments(paths[i]).Some? && Segments(paths[i]).value != []) &&
    forall i, j :: 0 <= i < |paths| && 0 <= j < |paths| && i != j ==>
      Separate(Segments(paths[i]).value, Segments(paths[j]).value)
  }

  lemma DeclaredPathsSeparate(t: Json)
    requires t.Object?
    ensures SeparatePaths(DeclaredPaths(t))
  {
    var paths := DeclaredPaths(t);
    DeclaredPathsExact(t);
    StrictIsDistinct(paths, Identity);
    forall i | 0 <= i < |paths| ensures Segments(paths[i]).Some? && Segments(paths[i]).value != [] {
      var p := LeafOfPointer(t, paths[i]);
    }
    forall i, j | 0 <= i < |paths| && 0 <= j < |paths| && i != j
      ensures Separate(Segments(paths[i]).value, Segments(paths[j]).value)
    {
      var p := LeafOfPointer(t, paths[i]);
      var q := LeafOfPointer(t, paths[j]);
      assert Identity(paths[if i < j then i else j]) != Identity(paths[if i < j then j else i]);
      LeavesArePrefixFree(t, p, q);
    }
  }

  lemma {:induction false} SnapshotBeside(remote: Json, paths: seq<string>, q: Path)
    requires q != []
    requires forall i :: 0 <= i < |paths| ==> Segments(paths[i]).Some? && Separate(Segments(paths[i]).value, q)
    ensures Lookup(Snapshot(remote, paths), q).None?
  {
    if paths != [] {
      var init := paths[..|paths| - 1];
      var last := paths[|paths| - 1];
      SnapshotBeside(remote, init, q);
      if PointerValue(remote, last).Some? {
        LookupBesideWrite(Snapshot(remote, init), Segments(last).value, PointerValue(remote, last).value, q);
      }
    }
  }

  // A snapshot shows, at each requested path, exactly what the account holds there.
  lemma {:induction false} SnapshotShows(remote: Json, paths: seq<string>, i: nat)
    requires SeparatePaths(paths) && i < |paths|
    ensures PointerValue(Snapshot(remote, paths), paths[i]) == PointerValue(remote, paths[i])
    decreases |paths|
  {
    hide Separate, Lookup, WriteAt, Segments;
    var n := |paths| - 1;
    var init := paths[..n];
    var last := paths[n];
    var rest := Snapshot(remote, init);
    assert SeparatePaths(init);
    if i < n {
      SnapshotShows(remote, init, i);
      assert init[i] == paths[i];
      if PointerValue(remote, last).Some? {
        LookupBesideWrite(rest, Segments(last).value, PointerValue(remote, last).value, Segments(paths[i]).value);
      }
    } else if PointerValue(remote, last).Some? {
      LookupAfterWrite(rest, Segments(last).value, PointerValue(remote, last).value);
    } else {
      SnapshotBeside(remote, init, Segments(last).value);
    }
  }

  // A snapshot depends on the values at its paths alone.
  lemma {:induction false} SnapshotDependsOnPaths(a: Json, b: Json, paths: seq<string>)
    requires forall i :: 0 <= i < |paths| ==> PointerValue(a, paths[i]) == PointerValue(b, paths[i])
    ensures Snapshot(a, paths) == Snapshot(b, paths)
  {
    if paths != [] {
      SnapshotDependsOnPaths(a, b, paths[..|paths| - 1]);
    }
  }

  // ---- edits beside the paths ----

  // Neither the field at this place, nor what lies below it, nor an object on the way to it
  // is touched.
  ghost predicate Spares(before: Json, after: Json, p: Path) {
    forall q :: !Separate(p, q) ==> ShapeAt(after, q) == ShapeAt(before, q)
  }

  ghost predicate SparesAll(before: Json, after: Json, paths: seq<string>) {
    forall i :: 0 <= i < |paths| ==> Segments(paths[i]).Some? && Spares(before, after, Segments(paths[i]).value)
  }

  // A spared leaf, or its absence, stays.
  lemma SparedValue(before: Json, after: Json, path: string)
    requires Segments(path).Some? && Spares(before, after, Segments(path).value)
    requires PointerValue(before, path).Some? ==> !PointerValue(before, path).value.Object?
    ensures PointerValue(after, path) == PointerValue(before, path)
  {
    var p := Segments(path).value;
    assert IsPrefix(p, p);
    assert ShapeAt(after, p) == ShapeAt(before, p);
  }

  // The values of one tree put back into another.
  ghost function PutBack(t: Json, values: Json, paths: seq<string>): Json {
    if paths == [] then t
    else
      var rest := PutBack(t, values, paths[..|paths| - 1]);
      var last := paths[|paths| - 1];
      if Segments(last).Some? && PointerValue(values, last).Some?
      then WriteAt(rest, Segments(last).value, PointerValue(values, last).value)
      else rest
  }

  // Objects stand on the way to all the paths.
  ghost predicate Rooted(t: Json, paths: seq<string>) {
    forall i, q :: 0 <= i < |paths| && Above(q, paths[i]) ==> ShapeAt(t, q) == Branch
  }

  ghost predicate Above(q: Path, path: string) {
    Segments(path).Some? && IsPrefix(q, Segments(path).value) && q != Segments(path).value
  }

  lemma {:induction false} PutBackShapes(t: Json, values: Json, paths: seq<string>, q: Path)
    requires SeparatePaths(paths) && Rooted(t, paths) && Outside(paths, q)
    ensures ShapeAt(PutBack(t, values, paths), q) == ShapeAt(t, q)
  {
    if paths != [] {
      var init, last := paths[..|paths| - 1], paths[|paths| - 1];
      var rest := PutBack(t, values, init);
      RootedInit(t, paths);
      PutBackShapes(t, values, init, q);
      if PointerValue(values, last).Some? {
        var p := Segments(last).value;
        assert !IsPrefix(p, q);
        var value := PointerValue(values, last).value;
        WriteKeepsShapes(rest, WriteAt(rest, p, value), p, value, q);
      }
    }
  }

  lemma RootedInit(t: Json, paths: seq<string>)
    requires paths != [] && SeparatePaths(paths) && Rooted(t, paths)
    ensures SeparatePaths(paths[..|paths| - 1]) && Rooted(t, paths[..|paths| - 1])
  {
    var init := paths[..|paths| - 1];
    forall i, q | 0 <= i < |init| && Above(q, init[i]) ensures ShapeAt(t, q) == Branch {
      assert init[i] == paths[i];
    }
  }

  lemma {:induction false} PutBackValues(t: Json, values: Json, paths: seq<string>, i: nat)
    requires SeparatePaths(paths) && i < |paths| && PointerValue(values, paths[i]).Some?
    ensures PointerValue(PutBack(t, values, paths), paths[i]) == PointerValue(values, paths[i])
  {
    var n := |paths| - 1;
    var init, last := paths[..n], paths[n];
    var rest := PutBack(t, values, init);
    assert SeparatePaths(init);
    if i < n {
      PutBackValues(t, values, init, i);
      assert init[i] == paths[i];
      if PointerValue(values, last).Some? {
        LookupBesideWrite(rest, Segments(last).value, PointerValue(values, last).value, Segments(paths[i]).value);
      }
    } else {
      LookupAfterWrite(rest, Segments(last).value, PointerValue(values, last).value);
    }
  }

  // Places agreeing outside the paths and values agreeing at them make the same
  // tree, provided the values are leaves.
  lemma SameEverywhere(t: Json, u: Json, paths: seq<string>)
    requires SameOutside(t, u, paths) && SeparatePaths(paths)
    requires forall i :: 0 <= i < |paths| ==>
      PointerValue(t, paths[i]) == PointerValue(u, paths[i]) && PointerValue(t, paths[i]).Some?
    ensures t == u
  {
    forall q ensures ShapeAt(t, q) == ShapeAt(u, q) {
      if !Outside(paths, q) {
        var i :| 0 <= i < |paths| && IsPrefix(Segments(paths[i]).value, q);
        var p := Segments(paths[i]).value;
        assert PointerValue(t, paths[i]) == PointerValue(u, paths[i]);
        assert q == p + q[|p|..];
        LookupSplit(t, p, q[|p|..]);
        LookupSplit(u, p, q[|p|..]);
      }
    }
    ShapesDetermineTree(t, u);
  }
}
