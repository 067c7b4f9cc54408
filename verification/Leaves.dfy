// The leaf fields of a declared tree: every value that is not an object, in the
// order a traversal over sorted keys meets them. An empty object has no leaf.
module Leaves {
  import opened Wrappers
  import opened Sorting
  import opened Uniqueness
  import opened JsonPointer
  import opened JsonTree

  ghost function Under(key: string, paths: seq<Path>): (r: seq<Path>)
    ensures |r| == |paths|
    ensures forall i :: 0 <= i < |r| ==> r[i] == [key] + paths[i]
  {
    seq(|paths|, i requires 0 <= i < |paths| => [key] + paths[i])
  }

  ghost function LeavesOf(t: Json): seq<Path>
    decreases t, 0
  {
    if t.Object? then
      var keys := KeyOrder(t.fields.Keys);
      LeavesOver(t, keys)
    else [[]]
  }

  ghost function LeavesOver(t: Json, keys: seq<string>): seq<Path>
    requires t.Object? && forall k :: k in keys ==> k in t.fields
    decreases t, 0, |keys|
  {
    if keys == [] then []
    else
      var last := keys[|keys| - 1];
      LeavesOver(t, keys[..|keys| - 1]) + Under(last, LeavesOf(t.fields[last]))
  }

  // The pointers of leaves found below a value that itself sits at base.
  ghost function Pointers(base: Path, paths: seq<Path>): (r: seq<string>)
    ensures |r| == |paths|
    ensures forall i :: 0 <= i < |r| ==> r[i] == Pointer(base + paths[i])
  {
    seq(|paths|, i requires 0 <= i < |paths| => Pointer(base + paths[i]))
  }

  lemma PointersUnder(base: Path, key: string, paths: seq<Path>)
    ensures Pointers(base, Under(key, paths)) == Pointers(base + [key], paths)
  {
    forall i | 0 <= i < |paths| ensures Pointer(base + Under(key, paths)[i]) == Pointer(base + [key] + paths[i]) {
      assert base + ([key] + paths[i]) == base + [key] + paths[i];
    }
  }

  lemma PointersConcat(base: Path, a: seq<Path>, b: seq<Path>)
    ensures Pointers(base, a + b) == Pointers(base, a) + Pointers(base, b)
  {
  }

  // ---- the traversal yields exactly the leaves, each once ----

  lemma {:induction false} LeavesAreLeaves(t: Json, p: Path)
    ensures p in LeavesOf(t) <==> IsLeaf(t, p)
    decreases t, 0
  {
    if t.Object? {
      LeavesOverAreLeaves(t, KeyOrder(t.fields.Keys), p);
    } else if p != [] {
      assert Lookup(t, p).None?;
    }
  }

  lemma {:induction false} LeavesOverAreLeaves(t: Json, keys: seq<string>, p: Path)
    requires t.Object? && forall k :: k in keys ==> k in t.fields
    ensures p in LeavesOver(t, keys) <==> p != [] && p[0] in keys && IsLeaf(t, p)
    decreases t, 0, |keys|
  {
    if keys != [] {
      var last := keys[|keys| - 1];
      var child := t.fields[last];
      LeavesOverAreLeaves(t, keys[..|keys| - 1], p);
      UnderMembers(last, LeavesOf(child), p);
      if p != [] {
        LeavesAreLeaves(child, p[1..]);
        assert p[0] in keys <==> p[0] in keys[..|keys| - 1] || p[0] == last;
      }
    }
  }

  lemma UnderMembers(key: string, paths: seq<Path>, p: Path)
    ensures p in Under(key, paths) <==> p != [] && p[0] == key && p[1..] in paths
  {
    if p != [] && p[0] == key && p[1..] in paths {
      var i :| 0 <= i < |paths| && paths[i] == p[1..];
      assert Under(key, paths)[i] == p;
    }
    if p in Under(key, paths) {
      var i :| 0 <= i < |paths| && Under(key, paths)[i] == p;
      assert p[1..] == paths[i];
    }
  }

  lemma LastIsNew(keys: seq<string>)
    requires keys != [] && DistinctKeys(keys, Identity)
    ensures keys[|keys| - 1] !in keys[..|keys| - 1]
  {
    forall i | 0 <= i < |keys| - 1 ensures keys[i] != keys[|keys| - 1] {
      assert Identity(keys[i]) != Identity(keys[|keys| - 1]);
    }
  }

  lemma {:induction false} LeavesDistinct(t: Json)
    ensures Distinct(LeavesOf(t))
    decreases t, 0
  {
    if t.Object? {
      var keys := KeyOrder(t.fields.Keys);
      StrictIsDistinct(keys, Identity);
      LeavesOverDistinct(t, keys);
    }
  }

  lemma {:induction false} LeavesOverDistinct(t: Json, keys: seq<string>)
    requires t.Object? && forall k :: k in keys ==> k in t.fields
    requires DistinctKeys(keys, Identity)
    ensures Distinct(LeavesOver(t, keys))
    decreases t, 0, |keys|
  {
    if keys != [] {
      var init := keys[..|keys| - 1];
      var last := keys[|keys| - 1];
      var below := LeavesOf(t.fields[last]);
      LeavesOverDistinct(t, init);
      LeavesDistinct(t.fields[last]);
      forall p | p in LeavesOver(t, init) ensures p !in Under(last, below) {
        LeavesOverAreLeaves(t, init, p);
        UnderMembers(last, below, p);
        LastIsNew(keys);
      }
      assert Distinct(Under(last, below)) by {
        forall i, j | 0 <= i < j < |below| ensures Under(last, below)[i] != Under(last, below)[j] {
          assert Under(last, below)[i][1..] == below[i];
          assert Under(last, below)[j][1..] == below[j];
        }
      }
      DistinctConcat(LeavesOver(t, init), Under(last, below));
    }
  }

  // ---- declared paths ----

  // What DeclaredPaths returns: the pointers of all leaves, sorted.
  ghost function DeclaredPaths(t: Json): seq<string> {
    SortBy(Pointers([], LeavesOf(t)), Identity)
  }

  lemma PointersDistinct(paths: seq<Path>)
    requires Distinct(paths)
    ensures DistinctKeys(Pointers([], paths), Identity)
  {
    forall i, j | 0 <= i < j < |paths| ensures Pointers([], paths)[i] != Pointers([], paths)[j] {
      assert [] + paths[i] == paths[i] && [] + paths[j] == paths[j];
      PointerInjective(paths[i], paths[j]);
    }
  }

  // Declared paths are strictly sorted and are exactly the leaf pointers.
  lemma DeclaredPathsExact(t: Json)
    ensures StrictlySorted(DeclaredPaths(t), Identity)
    ensures forall path :: path in DeclaredPaths(t) <==> exists p :: IsLeaf(t, p) && path == Pointer(p)
    ensures forall p :: IsLeaf(t, p) ==> Pointer(p) in DeclaredPaths(t)
  {
    var leaves := LeavesOf(t);
    LeavesDistinct(t);
    PointersDistinct(leaves);
    SortByStrict(Pointers([], leaves), Identity);
    forall path ensures path in DeclaredPaths(t) <==> exists p :: IsLeaf(t, p) && path == Pointer(p) {
      if path in DeclaredPaths(t) {
        assert path in Pointers([], leaves);
        var i :| 0 <= i < |leaves| && Pointers([], leaves)[i] == path;
        assert [] + leaves[i] == leaves[i];
        LeavesAreLeaves(t, leaves[i]);
        assert leaves[i] in leaves;
      }
      if p :| IsLeaf(t, p) && path == Pointer(p) {
        LeafDeclared(t, p);
      }
    }
    forall p | IsLeaf(t, p) ensures Pointer(p) in DeclaredPaths(t) {
      LeafDeclared(t, p);
    }
  }

  lemma LeafDeclared(t: Json, p: Path)
    requires IsLeaf(t, p)
    ensures Pointer(p) in DeclaredPaths(t)
  {
    var leaves := LeavesOf(t);
    LeavesAreLeaves(t, p);
    var i :| 0 <= i < |leaves| && leaves[i] == p;
    assert [] + p == p;
    assert Pointers([], leaves)[i] == Pointer(p);
    SameMultisetSameElements(SortBy(Pointers([], leaves), Identity), Pointers([], leaves));
  }

  // The path of keys behind a declared pointer.
  lemma LeafOfPointer(t: Json, path: string) returns (p: Path)
    requires path in DeclaredPaths(t)
    ensures IsLeaf(t, p) && path == Pointer(p) && Segments(path) == Some(p)
    ensures PointerValue(t, path) == Lookup(t, p)
  {
    DeclaredPathsExact(t);
    p :| IsLeaf(t, p) && path == Pointer(p);
    SegmentsOfPointer(p);
  }

  // ---- collecting, as the source does it ----

  lemma ConcatAssociative<T>(a: seq<T>, b: seq<T>, c: seq<T>)
    ensures a + b + c == a + (b + c)
  {
  }

  // One more key of an object appends the pointers found below it.
  lemma CollectStep(base: Path, t: Json, keys: seq<string>, index: nat)
    requires t.Object? && forall k :: k in keys ==> k in t.fields
    requires index < |keys|
    ensures keys[index] in t.fields
    ensures Pointers(base, LeavesOver(t, keys[..index + 1])) ==
            Pointers(base, LeavesOver(t, keys[..index])) +
            Pointers(base + [keys[index]], LeavesOf(t.fields[keys[index]]))
  {
    var key := keys[index];
    assert key in keys;
    var before := LeavesOver(t, keys[..index]);
    var below := LeavesOf(t.fields[key]);
    assert keys[..index + 1][..index] == keys[..index];
    PointersUnder(base, key, below);
    PointersConcat(base, before, Under(key, below));
  }

  // collectDeclaredPaths appends to a slice it is handed by reference.
  class PathList {
    var paths: seq<string>

    constructor ()
      ensures paths == []
    {
      paths := [];
    }

    method CollectDeclaredPaths(ghost base: Path, path: string, value: Json)
      requires path == Pointer(base)
      modifies this
      ensures paths == old(paths) + Pointers(base, LeavesOf(value))
      decreases value
    {
      if value.Object? {
        CollectFields(base, path, value);
      } else {
        paths := paths + [path];
        assert base + [] == base;
      }
    }

    method CollectFields(ghost base: Path, path: string, value: Json)
      requires value.Object? && path == Pointer(base)
      modifies this
      ensures paths == old(paths) + Pointers(base, LeavesOf(value))
      decreases value, 0
    {
      var keys := SortedKeys(value.fields);
      ghost var start := paths;
      ghost var added: seq<string> := [];
      var index := 0;
      while index < |keys|
        invariant 0 <= index <= |keys|
        invariant added == Pointers(base, LeavesOver(value, keys[..index]))
        invariant paths == start + added
      {
        var key := keys[index];
        PointerExtend(base, key);
        CollectStep(base, value, keys, index);
        ghost var below := Pointers(base + [key], LeavesOf(value.fields[key]));
        CollectDeclaredPaths(base + [key], path + "/" + EscapeSegment(key), value.fields[key]);
        ConcatAssociative(start, added, below);
        added := added + below;
        index := index + 1;
      }
      assert keys[..index] == keys;
    }
  }

  method DeclaredPathsOf(state: Json) returns (paths: seq<string>)
    ensures paths == DeclaredPaths(state)
  {
    var list := new PathList();
    list.CollectDeclaredPaths([], "", state);
    assert list.paths == Pointers([], LeavesOf(state));
    paths := SortBy(list.paths, Identity);
  }
}
