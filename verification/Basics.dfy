// Shared vocabulary: optional and failing results, the byte order of Go strings,
// and the sorting routines of Go's standard library.

module Wrappers {

  datatype Option<+T> = None | Some(value: T)

  datatype Result<+R, +E> = Ok(value: R) | Err(error: E)
}

// Go compares strings bytewise. For valid UTF-8 that is the order of the code
// points, which is what comparing Dafny characters gives.
module Ordering {

  predicate Less(a: string, b: string) {
    b != [] && (a == [] || a[0] < b[0] || (a[0] == b[0] && Less(a[1..], b[1..])))
  }

  predicate AtMost(a: string, b: string) {
    a == b || Less(a, b)
  }

  lemma {:induction false} LessIrreflexive(a: string)
    ensures !Less(a, a)
  {
    if a != [] {
      LessIrreflexive(a[1..]);
    }
  }

  lemma {:induction false} LessTransitive(a: string, b: string, c: string)
    requires Less(a, b) && Less(b, c)
    ensures Less(a, c)
  {
    if a != [] && a[0] == b[0] && b[0] == c[0] {
      LessTransitive(a[1..], b[1..], c[1..]);
    }
  }

  lemma {:induction false} LessTotal(a: string, b: string)
    ensures a == b || Less(a, b) || Less(b, a)
  {
    if a != [] && b != [] && a[0] == b[0] {
      LessTotal(a[1..], b[1..]);
      if a[1..] == b[1..] {
        assert a == [a[0]] + a[1..] == [b[0]] + b[1..] == b;
      }
    }
  }

  lemma LessAsymmetric(a: string, b: string)
    requires Less(a, b)
    ensures !Less(b, a) && a != b
  {
    LessIrreflexive(a);
    if Less(b, a) {
      LessTransitive(a, b, a);
    }
  }
}

// Sorting by a string key, as sort.Strings and sort.Slice are used in the source.
module Sorting {
  import opened Ordering

  function Identity(s: string): string { s }

  ghost predicate Sorted<T>(s: seq<T>, key: T -> string) {
    forall i, j :: 0 <= i < j < |s| ==> AtMost(key(s[i]), key(s[j]))
  }

  ghost predicate StrictlySorted<T>(s: seq<T>, key: T -> string) {
    forall i, j :: 0 <= i < j < |s| ==> Less(key(s[i]), key(s[j]))
  }

  ghost predicate DistinctKeys<T>(s: seq<T>, key: T -> string) {
    forall i, j :: 0 <= i < j < |s| ==> key(s[i]) != key(s[j])
  }

  ghost predicate SameElements<T(!new)>(a: seq<T>, b: seq<T>) {
    forall x :: x in a <==> x in b
  }

  function Insert<T>(x: T, s: seq<T>, key: T -> string): (r: seq<T>)
    ensures multiset(r) == multiset(s) + multiset{x}
  {
    if s == [] then [x]
    else if Less(key(s[0]), key(x)) then
      assert s == [s[0]] + s[1..];
      [s[0]] + Insert(x, s[1..], key)
    else [x] + s
  }

  function SortBy<T>(s: seq<T>, key: T -> string): (r: seq<T>)
    ensures multiset(r) == multiset(s)
  {
    if s == [] then []
    else
      assert s == [s[0]] + s[1..];
      Insert(s[0], SortBy(s[1..], key), key)
  }

  lemma {:induction false} InsertSorted<T>(x: T, s: seq<T>, key: T -> string)
    requires Sorted(s, key)
    ensures Sorted(Insert(x, s, key), key)
  {
    if s == [] {
    } else if Less(key(s[0]), key(x)) {
      InsertSorted(x, s[1..], key);
      var rest := Insert(x, s[1..], key);
      forall j | 0 <= j < |rest| ensures AtMost(key(s[0]), key(rest[j])) {
        assert rest[j] in multiset(rest);
        assert rest[j] in multiset(s[1..]) + multiset{x};
        if rest[j] != x {
          assert rest[j] in s[1..];
          var i :| 0 <= i < |s[1..]| && s[1..][i] == rest[j];
          assert s[i + 1] == rest[j];
        }
      }
    } else {
      LessTotal(key(x), key(s[0]));
      forall j | 0 <= j < |s| ensures AtMost(key(x), key(s[j])) {
        if j > 0 && key(x) != key(s[0]) && key(s[0]) != key(s[j]) {
          LessTransitive(key(x), key(s[0]), key(s[j]));
        }
      }
    }
  }

  lemma {:induction false} SortBySorted<T>(s: seq<T>, key: T -> string)
    ensures Sorted(SortBy(s, key), key)
  {
    if s != [] {
      SortBySorted(s[1..], key);
      InsertSorted(s[0], SortBy(s[1..], key), key);
    }
  }

  lemma SameMultisetSameElements<T(!new)>(a: seq<T>, b: seq<T>)
    requires multiset(a) == multiset(b)
    ensures SameElements(a, b) && |a| == |b|
  {
    forall x ensures x in a <==> x in b {
      assert x in a <==> x in multiset(a);
      assert x in b <==> x in multiset(b);
    }
    assert |multiset(a)| == |a|;
    assert |multiset(b)| == |b|;
  }

  lemma {:induction false} DistinctInsert<T>(x: T, s: seq<T>, key: T -> string)
    requires DistinctKeys(s, key)
    requires forall y :: y in s ==> key(y) != key(x)
    ensures DistinctKeys(Insert(x, s, key), key)
  {
    if s == [] {
    } else if Less(key(s[0]), key(x)) {
      forall y | y in s[1..] ensures key(y) != key(x) {
        assert y in s;
      }
      DistinctInsert(x, s[1..], key);
      var rest := Insert(x, s[1..], key);
      forall j | 0 <= j < |rest| ensures key(s[0]) != key(rest[j]) {
        assert rest[j] in multiset(rest);
        if rest[j] != x {
          assert rest[j] in s[1..];
          var i :| 0 <= i < |s[1..]| && s[1..][i] == rest[j];
          assert s[i + 1] == rest[j];
        }
      }
    }
  }

  // Sorting distinct keys leaves no equal neighbours.
  lemma {:induction false} SortByStrict<T(!new)>(s: seq<T>, key: T -> string)
    requires DistinctKeys(s, key)
    ensures StrictlySorted(SortBy(s, key), key)
    ensures SameElements(SortBy(s, key), s)
  {
    SortBySorted(s, key);
    SameMultisetSameElements(SortBy(s, key), s);
    SortByDistinct(s, key);
  }

  lemma {:induction false} SortByDistinct<T(!new)>(s: seq<T>, key: T -> string)
    requires DistinctKeys(s, key)
    ensures DistinctKeys(SortBy(s, key), key)
  {
    if s != [] {
      SortByDistinct(s[1..], key);
      var rest := SortBy(s[1..], key);
      SameMultisetSameElements(rest, s[1..]);
      forall y | y in rest ensures key(y) != key(s[0]) {
        assert y in s[1..];
        var i :| 0 <= i < |s[1..]| && s[1..][i] == y;
        assert s[i + 1] == y;
      }
      DistinctInsert(s[0], rest, key);
    }
  }

  lemma DistinctAppend<T>(s: seq<T>, x: T, key: T -> string)
    requires DistinctKeys(s, key)
    requires forall y :: y in s ==> key(y) != key(x)
    ensures DistinctKeys(s + [x], key)
  {
    forall i, j | 0 <= i < j < |s + [x]| ensures key((s + [x])[i]) != key((s + [x])[j]) {
      if j == |s| {
        assert s[i] in s;
      }
    }
  }

  lemma StrictIsDistinct<T>(s: seq<T>, key: T -> string)
    requires StrictlySorted(s, key)
    ensures DistinctKeys(s, key)
  {
    forall i, j | 0 <= i < j < |s| ensures key(s[i]) != key(s[j]) {
      LessAsymmetric(key(s[i]), key(s[j]));
    }
  }

  lemma NonEmptyHasElement<T(!new)>(s: seq<T>)
    ensures s == [] || exists x :: x in s
  {
    if s != [] {
      assert s[0] in s;
    }
  }

  // A strictly sorted sequence is determined by its elements.
  lemma {:induction false} SortedUnique<T(!new)>(a: seq<T>, b: seq<T>, key: T -> string)
    requires StrictlySorted(a, key) && StrictlySorted(b, key)
    requires SameElements(a, b)
    ensures a == b
  {
    if a == [] {
      NonEmptyHasElement(b);
    } else {
      assert a[0] in b;
      assert b != [];
      assert b[0] in a;
      if a[0] != b[0] {
        var i :| 0 <= i < |a| && a[i] == b[0];
        var j :| 0 <= j < |b| && b[j] == a[0];
        LessAsymmetric(key(a[0]), key(b[0]));
        assert false;
      }
      forall x ensures x in a[1..] <==> x in b[1..] {
        TailElements(a, key, x);
        TailElements(b, key, x);
      }
      SortedUnique(a[1..], b[1..], key);
      assert a == [a[0]] + a[1..] == [b[0]] + b[1..] == b;
    }
  }

  lemma TailElements<T>(a: seq<T>, key: T -> string, x: T)
    requires a != [] && StrictlySorted(a, key)
    ensures x in a[1..] <==> x in a && x != a[0]
  {
    if x in a[1..] {
      var i :| 0 <= i < |a[1..]| && a[1..][i] == x;
      assert a[i + 1] == x;
      LessAsymmetric(key(a[0]), key(x));
    }
    if x in a && x != a[0] {
      var i :| 0 <= i < |a| && a[i] == x;
      assert a[1..][i - 1] == x;
    }
  }
}

// Sequences without repetitions, and the sets of keys loops keep to find them.
module Uniqueness {
  ghost predicate Distinct<T(!new)>(s: seq<T>) {
    forall i, j :: 0 <= i < j < |s| ==> s[i] != s[j]
  }

  lemma DistinctConcat<T(!new)>(a: seq<T>, b: seq<T>)
    requires Distinct(a) && Distinct(b)
    requires forall x :: x in a ==> x !in b
    ensures Distinct(a + b)
  {
    forall i, j | 0 <= i < j < |a + b| ensures (a + b)[i] != (a + b)[j] {
      if i < |a| <= j {
        assert a[i] in a && b[j - |a|] in b;
      }
    }
  }

  lemma NewKey(keys: seq<string>, i: nat)
    requires i < |keys| && Distinct(keys[..i]) && keys[i] !in keys[..i]
    ensures Distinct(keys[..i + 1])
  {
    forall m, n | 0 <= m < n < i + 1 ensures keys[m] != keys[n] {
      if n < i {
        assert keys[..i][m] != keys[..i][n];
      } else {
        assert keys[..i][m] in keys[..i];
      }
    }
  }

  lemma RepeatedKey(keys: seq<string>, i: nat)
    requires i < |keys| && keys[i] in keys[..i]
    ensures !Distinct(keys)
  {
    var j :| 0 <= j < i && keys[..i][j] == keys[i];
    assert keys[j] == keys[i];
  }

  // A loop over a growing set of seen keys.
  ghost predicate Seen(seen: set<string>, keys: seq<string>) {
    forall t :: t in seen <==> t in keys
  }

  lemma SeenNext(seen: set<string>, keys: seq<string>, i: nat)
    requires i < |keys| && Seen(seen, keys[..i])
    ensures Seen(seen + {keys[i]}, keys[..i + 1])
  {
    assert keys[..i + 1] == keys[..i] + [keys[i]];
  }

  // The first keys are distinct and seen.
  ghost predicate Unrepeated(seen: set<string>, keys: seq<string>, n: nat)
    requires n <= |keys|
  {
    Seen(seen, keys[..n]) && Distinct(keys[..n])
  }

  lemma UnrepeatedNext(seen: set<string>, keys: seq<string>, n: nat)
    requires n < |keys| && Unrepeated(seen, keys, n)
    ensures keys[n] in seen ==> !Distinct(keys)
    ensures keys[n] !in seen ==> Unrepeated(seen + {keys[n]}, keys, n + 1)
  {
    SeenNext(seen, keys, n);
    if keys[n] in seen {
      RepeatedKey(keys, n);
    } else {
      NewKey(keys, n);
    }
  }

  lemma UnrepeatedAll(seen: set<string>, keys: seq<string>)
    requires Unrepeated(seen, keys, |keys|)
    ensures Distinct(keys)
  {
    assert keys[..|keys|] == keys;
  }

  lemma {:induction false} DistinctCount(s: seq<string>)
    ensures Distinct(s) <==> forall x :: multiset(s)[x] <= 1
  {
    if s != [] {
      var init, last := s[..|s| - 1], s[|s| - 1];
      DistinctCount(init);
      assert s == init + [last];
      assert last in init <==> multiset(init)[last] >= 1;
      if Distinct(s) {
        assert last !in init;
        forall x ensures multiset(s)[x] <= 1 {
          assert multiset(init)[x] <= 1;
        }
      } else {
        if Distinct(init) {
          var i, j :| 0 <= i < j < |s| && s[i] == s[j];
          assert j == |s| - 1;
          assert init[i] == last;
          assert multiset(s)[last] >= 2;
        } else {
          var x :| multiset(init)[x] > 1;
          assert multiset(s)[x] > 1;
        }
      }
    }
  }

  lemma DistinctPermutation(a: seq<string>, b: seq<string>)
    requires multiset(a) == multiset(b)
    ensures Distinct(a) <==> Distinct(b)
  {
    DistinctCount(a);
    DistinctCount(b);
  }

  lemma DistinctSameMultiset(a: seq<string>, b: seq<string>)
    requires Distinct(a) && Distinct(b) && forall x :: x in a <==> x in b
    ensures multiset(a) == multiset(b)
  {
    DistinctCount(a);
    DistinctCount(b);
    forall x ensures multiset(a)[x] == multiset(b)[x] {
      assert x in a <==> multiset(a)[x] >= 1;
      assert x in b <==> multiset(b)[x] >= 1;
    }
  }

  // A part is the whole exactly when it is as large.
  lemma SameSizeSameKeys(used: set<string>, keys: set<string>)
    requires used <= keys
    ensures |used| == |keys| <==> used == keys
  {
    if used != keys {
      var x :| x in keys && x !in used;
      SubsetSize(used, keys - {x});
    }
  }

  lemma {:induction false} SubsetSize<T>(a: set<T>, b: set<T>)
    requires a <= b
    ensures |a| <= |b|
  {
    if a != {} {
      var x :| x in a;
      SubsetSize(a - {x}, b - {x});
    }
  }
}
