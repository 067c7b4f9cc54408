// JSON values as decoded by core/profile_state.go (numbers keep their text) and
// the reading and writing of one addressed value.
module JsonTree {
  import opened Wrappers
  import opened Sorting
  import opened JsonPointer

  datatype Json =
    | Null
    | Bool(flag: bool)
    | Number(text: string)
    | Str(value: string)
    | Array(items: seq<Json>)
    | Object(fields: map<string, Json>)

  // A path of object keys. Arrays are never descended into.
  type Path = seq<string>

  ghost predicate IsPrefix(p: Path, q: Path) {
    |p| <= |q| && q[..|p|] == p
  }

  // Neither path addresses a part of the other's value.
  ghost predicate Separate(p: Path, q: Path) {
    !IsPrefix(p, q) && !IsPrefix(q, p)
  }

  function Lookup(t: Json, p: Path): Option<Json>
    decreases |p|
  {
    if p == [] then Some(t)
    else if t.Object? && p[0] in t.fields then Lookup(t.fields[p[0]], p[1..])
    else None
  }

  // The value a pointer addresses; a malformed pointer addresses nothing.
  function PointerValue(root: Json, pointer: string): Option<Json> {
    match Segments(pointer)
    case None => None
    case Some(p) => Lookup(root, p)
  }

  lemma LookupPointer(root: Json, p: Path)
    ensures PointerValue(root, Pointer(p)) == Lookup(root, p)
  {
    SegmentsOfPointer(p);
  }

  // The walk of jsonPointerValue, which unescapes segment by segment.
  method JsonPointerValue(root: Json, pointer: string) returns (r: Option<Json>)
    ensures r == PointerValue(root, pointer)
  {
    if pointer == "" {
      return Some(root);
    }
    if pointer[0] != '/' {
      return None;
    }
    var current := root;
    var rawSegments := Split(pointer[1..]);
    var index := 0;
    assert rawSegments[0..] == rawSegments;
    while index < |rawSegments|
      invariant 0 <= index <= |rawSegments|
      invariant PointerValue(root, pointer) == LookupRaw(current, rawSegments[index..])
    {
      assert rawSegments[index..][1..] == rawSegments[index + 1..];
      LookupRawStep(current, rawSegments[index..]);
      var segment := Unescape(rawSegments[index]);
      if segment.None? || !current.Object? || segment.value !in current.fields {
        return None;
      }
      current := current.fields[segment.value];
      index := index + 1;
    }
    assert rawSegments[index..] == [];
    r := Some(current);
  }

  ghost function LookupRaw(t: Json, raw: seq<string>): Option<Json> {
    match UnescapeAll(raw)
    case None => None
    case Some(p) => Lookup(t, p)
  }

  lemma LookupRawStep(t: Json, raw: seq<string>)
    requires raw != []
    ensures LookupRaw(t, raw) ==
      var segment := UnescapeSegment(raw[0]);
      if segment.None? || !t.Object? || segment.value !in t.fields then None
      else LookupRaw(t.fields[segment.value], raw[1..])
  {
    if UnescapeAll(raw).Some? {
      var p := UnescapeAll(raw).value;
      assert p[1..] == UnescapeAll(raw[1..]).value;
    }
  }

  lemma {:induction false} LookupSplit(t: Json, p: Path, q: Path)
    ensures Lookup(t, p + q) ==
      match Lookup(t, p) { case None => None case Some(inner) => Lookup(inner, q) }
  {
    if p == [] {
      assert p + q == q;
    } else {
      assert (p + q)[1..] == p[1..] + q;
      if t.Object? && p[0] in t.fields {
        LookupSplit(t.fields[p[0]], p[1..], q);
      }
    }
  }

  // ---- leaves ----

  ghost predicate IsLeaf(t: Json, p: Path) {
    Lookup(t, p).Some? && !Lookup(t, p).value.Object?
  }

  // No leaf lies inside another: a leaf is not an object.
  lemma LeavesArePrefixFree(t: Json, p: Path, q: Path)
    requires IsLeaf(t, p) && IsLeaf(t, q)
    ensures p == q || Separate(p, q)
  {
    if IsPrefix(p, q) {
      assert q == p + q[|p|..];
      LookupSplit(t, p, q[|p|..]);
    }
    if IsPrefix(q, p) {
      assert p == q + p[|q|..];
      LookupSplit(t, q, p[|q|..]);
    }
  }

  // ---- the keys of an object, in the order sort.Strings leaves them ----

  ghost predicate IsKeyOrder(keys: seq<string>, of: set<string>) {
    StrictlySorted(keys, Identity) && forall k :: k in keys <==> k in of
  }

  lemma {:induction false} KeyOrderExists(of: set<string>)
    ensures exists keys :: IsKeyOrder(keys, of)
  {
    if of == {} {
      assert IsKeyOrder([], of);
    } else {
      var k :| k in of;
      KeyOrderExists(of - {k});
      var rest :| IsKeyOrder(rest, of - {k});
      StrictIsDistinct(rest, Identity);
      DistinctAppend(rest, k, Identity);
      SortedKeysAre(rest + [k], of);
    }
  }

  // Sorting any duplicate-free listing of the keys gives the key order.
  lemma SortedKeysAre(listing: seq<string>, of: set<string>)
    requires DistinctKeys(listing, Identity)
    requires forall k :: k in listing <==> k in of
    ensures IsKeyOrder(SortBy(listing, Identity), of)
  {
    SortByStrict(listing, Identity);
  }

  ghost function KeyOrder(of: set<string>): (keys: seq<string>)
    ensures IsKeyOrder(keys, of)
  {
    KeyOrderExists(of);
    var keys :| IsKeyOrder(keys, of);
    keys
  }

  lemma KeyOrderUnique(keys: seq<string>, of: set<string>)
    requires IsKeyOrder(keys, of)
    ensures keys == KeyOrder(of)
  {
    SortedUnique(keys, KeyOrder(of), Identity);
  }

  // Go iterates over a map in an arbitrary order and then sorts what it collected.
  method SortedKeys(fields: map<string, Json>) returns (keys: seq<string>)
    ensures keys == KeyOrder(fields.Keys)
  {
    keys := [];
    var remaining := fields.Keys;
    while remaining != {}
      invariant remaining <= fields.Keys
      invariant DistinctKeys(keys, Identity)
      invariant forall k :: k in keys <==> k in fields.Keys - remaining
      decreases remaining
    {
      var key :| key in remaining;
      DistinctAppend(keys, key, Identity);
      keys := keys + [key];
      remaining := remaining - {key};
    }
    SortedKeysAre(keys, fields.Keys);
    keys := SortBy(keys, Identity);
    KeyOrderUnique(keys, fields.Keys);
  }

  // ---- writing one value ----

  // The platform stores a value under a path, creating objects on the way.
  function WriteAt(t: Json, p: Path, value: Json): Json
    decreases |p|
  {
    if p == [] then value
    else
      var fields: map<string, Json> := if t.Object? then t.fields else map[];
      var child := if p[0] in fields then fields[p[0]] else Object(map[]);
      Object(fields[p[0] := WriteAt(child, p[1..], value)])
  }

  // The platform forgets the value under a path.
  function RemoveAt(t: Json, p: Path): Json
    decreases |p|
  {
    if p == [] || !t.Object? || p[0] !in t.fields then t
    else if |p| == 1 then Object(t.fields - {p[0]})
    else Object(t.fields[p[0] := RemoveAt(t.fields[p[0]], p[1..])])
  }

  // A platform may keep a cleared field as null or drop it.
  ghost predicate Written(t: Json, t': Json, p: Path, value: Json) {
    p != [] && (t' == WriteAt(t, p, value) || (value.Null? && t' == RemoveAt(t, p)))
  }

  // A present null and a missing field both stand for a cleared one.
  predicate Matches(observed: Option<Json>, desired: Json) {
    if desired.Null? && observed.None? then true
    else observed.Some? && observed.value == desired
  }

  lemma {:induction false} LookupAfterWrite(t: Json, p: Path, value: Json)
    ensures Lookup(WriteAt(t, p, value), p) == Some(value)
    decreases |p|
  {
    if p != [] {
      var fields: map<string, Json> := if t.Object? then t.fields else map[];
      LookupAfterWrite(if p[0] in fields then fields[p[0]] else Object(map[]), p[1..], value);
    }
  }

  lemma SeparateTail(p: Path, q: Path)
    requires p != [] && q != [] && p[0] == q[0]
    ensures IsPrefix(p, q) <==> IsPrefix(p[1..], q[1..])
  {
    if IsPrefix(p, q) {
      assert q[1..][..|p[1..]|] == q[..|p|][1..];
    }
    if IsPrefix(p[1..], q[1..]) {
      assert q[..|p|] == [q[0]] + q[1..][..|p[1..]|];
      assert p == [p[0]] + p[1..];
    }
  }

  lemma {:induction false} LookupBesideWrite(t: Json, p: Path, value: Json, q: Path)
    requires Separate(p, q)
    ensures Lookup(WriteAt(t, p, value), q) == Lookup(t, q)
    decreases |p|
  {
    assert p != [] && q != [];
    if p[0] == q[0] {
      SeparateTail(p, q);
      SeparateTail(q, p);
      var fields: map<string, Json> := if t.Object? then t.fields else map[];
      var child := if p[0] in fields then fields[p[0]] else Object(map[]);
      LookupBesideWrite(child, p[1..], value, q[1..]);
      if p[0] !in fields {
        assert q[1..] != [];
      }
    }
  }

  lemma {:induction false} LookupAfterRemove(t: Json, p: Path)
    requires p != []
    ensures Lookup(RemoveAt(t, p), p).None?
  {
    if t.Object? && p[0] in t.fields && |p| > 1 {
      LookupAfterRemove(t.fields[p[0]], p[1..]);
    }
  }

  lemma {:induction false} LookupBesideRemove(t: Json, p: Path, q: Path)
    requires p != [] && Separate(p, q)
    ensures Lookup(RemoveAt(t, p), q) == Lookup(t, q)
    decreases |p|
  {
    assert q == [] ==> IsPrefix(q, p);
    assert |p| == 1 && q != [] && p[0] == q[0] ==> IsPrefix(p, q);
    if t.Object? && p[0] in t.fields && p[0] == q[0] {
      SeparateTail(p, q);
      SeparateTail(q, p);
      LookupBesideRemove(t.fields[p[0]], p[1..], q[1..]);
    }
  }

  // A write settles its own field and no separate one.
  lemma WrittenEffect(t: Json, t': Json, p: Path, value: Json)
    requires Written(t, t', p, value)
    ensures Matches(Lookup(t', p), value)
    ensures forall q :: Separate(p, q) ==> Lookup(t', q) == Lookup(t, q)
  {
    LookupAfterWrite(t, p, value);
    if value.Null? && t' == RemoveAt(t, p) {
      LookupAfterRemove(t, p);
    }
    forall q | Separate(p, q) ensures Lookup(t', q) == Lookup(t, q) {
      LookupBesideWrite(t, p, value, q);
      LookupBesideRemove(t, p, q);
    }
  }

  // setJSONPointerValue replaces a value that exists and never adds one.
  function SetExisting(root: Json, p: Path, value: Json): Option<Json>
    decreases |p|
  {
    if p == [] || !root.Object? || p[0] !in root.fields then None
    else if |p| == 1 then Some(Object(root.fields[p[0] := value]))
    else
      match SetExisting(root.fields[p[0]], p[1..], value)
      case None => None
      case Some(child) => Some(Object(root.fields[p[0] := child]))
  }

  function SetPointerValue(root: Json, pointer: string, value: Json): Option<Json> {
    if pointer == "" || pointer[0] != '/' then None
    else
      match Segments(pointer)
      case None => None
      case Some(p) => SetExisting(root, p, value)
  }

  lemma {:induction false} SetExistingIsWrite(root: Json, p: Path, value: Json)
    ensures SetExisting(root, p, value) ==
      if p != [] && Lookup(root, p).Some? then Some(WriteAt(root, p, value)) else None
  {
    if p != [] && root.Object? && p[0] in root.fields && |p| > 1 {
      SetExistingIsWrite(root.fields[p[0]], p[1..], value);
    }
  }
}
