// Choosing resume skills: the model's decisions of operator/resume_tailoring_model.go
// and the deterministic policy of operator/resume_tailoring.go.
module Skills {
  import opened Wrappers
  import opened Uniqueness
  import opened Text

  datatype Action = Add | Keep | Remove | Other

  datatype Decision = Decision(value: string, action: Action, evidence: string)

  // Encoded only when the skills differ from the current ones.
  datatype Plan = Plan(skills: seq<string>, decisions: seq<Decision>, changed: bool)

  // norm is the case- and space-insensitive form of a skill.
  function Keys(norm: string -> string, skills: seq<string>): (keys: seq<string>)
    ensures |keys| == |skills| && forall i :: 0 <= i < |keys| ==> keys[i] == norm(skills[i])
  {
    if skills == [] then [] else Keys(norm, skills[..|skills| - 1]) + [norm(skills[|skills| - 1])]
  }

  function DecisionKeys(norm: string -> string, ds: seq<Decision>): (keys: seq<string>)
    ensures |keys| == |ds| && forall i :: 0 <= i < |keys| ==> keys[i] == norm(Trim(ds[i].value))
  {
    if ds == [] then [] else DecisionKeys(norm, ds[..|ds| - 1]) + [norm(Trim(ds[|ds| - 1].value))]
  }

  // ---- what a list of decisions means ----

  predicate Adds(norm: string -> string, current: seq<string>, d: Decision) {
    d.action == Add && norm(Trim(d.value)) !in Keys(norm, current)
  }

  function Additions(norm: string -> string, current: seq<string>, ds: seq<Decision>): seq<string> {
    if ds == [] then []
    else
      var last := ds[|ds| - 1];
      var before := Additions(norm, current, ds[..|ds| - 1]);
      if Adds(norm, current, last) then before + [Trim(last.value)] else before
  }

  function Trimmed(d: Decision, action: Action): Decision {
    Decision(Trim(d.value), action, Trim(d.evidence))
  }

  function Removals(ds: seq<Decision>): seq<Decision> {
    if ds == [] then []
    else
      var last := ds[|ds| - 1];
      var before := Removals(ds[..|ds| - 1]);
      if last.action == Remove then before + [Trimmed(last, Remove)] else before
  }

  // The recorded decisions other than removals.
  function Recorded(norm: string -> string, current: seq<string>, ds: seq<Decision>): seq<Decision> {
    if ds == [] then []
    else
      var last := ds[|ds| - 1];
      var before := Recorded(norm, current, ds[..|ds| - 1]);
      if last.action == Remove then before
        else before + [Trimmed(last, if Adds(norm, current, last) then Add else Keep)]
  }

  predicate Acceptable(norm: string -> string, current: seq<string>, vacancy: seq<string>, allowRemovals: bool,
      d: Decision) {
    var key := norm(Trim(d.value));
    key != "" && Trim(d.evidence) != "" && (key in Keys(norm, current) || key in Keys(norm, vacancy)) &&
    d.action != Other && (d.action == Remove ==> allowRemovals && key in Keys(norm, current))
  }

  ghost predicate AllAcceptable(norm: string -> string, current: seq<string>, vacancy: seq<string>,
      allowRemovals: bool, ds: seq<Decision>) {
    forall i :: 0 <= i < |ds| ==> Acceptable(norm, current, vacancy, allowRemovals, ds[i])
  }

  // The skills whose key is not dropped, in order.
  function Without(norm: string -> string, skills: seq<string>, dropped: seq<string>): seq<string> {
    if skills == [] then []
    else
      var last := skills[|skills| - 1];
      var before := Without(norm, skills[..|skills| - 1], dropped);
      if norm(last) in dropped then before else before + [last]
  }

  function Values(ds: seq<Decision>): (values: seq<string>)
    ensures |values| == |ds| && forall i :: 0 <= i < |values| ==> values[i] == ds[i].value
  {
    if ds == [] then [] else Values(ds[..|ds| - 1]) + [ds[|ds| - 1].value]
  }

  // How many skills have to go.
  function Required(combined: nat, maximum: nat): nat {
    if combined > maximum then combined - maximum else 0
  }

  ghost function Combined(norm: string -> string, current: seq<string>, ds: seq<Decision>): seq<string> {
    current + Additions(norm, current, ds)
  }

  // The keys the plan drops: the first removals the model named, as many as needed.
  ghost function Dropped(norm: string -> string, current: seq<string>, ds: seq<Decision>, maximum: nat): seq<string>
    requires Required(|Combined(norm, current, ds)|, maximum) <= |Removals(ds)|
  {
    Keys(norm, Values(Removals(ds)))[..Required(|Combined(norm, current, ds)|, maximum)]
  }

  ghost function Chosen(norm: string -> string, current: seq<string>, ds: seq<Decision>, maximum: nat): seq<string>
    requires Required(|Combined(norm, current, ds)|, maximum) <= |Removals(ds)|
  {
    Without(norm, Combined(norm, current, ds), Dropped(norm, current, ds, maximum))
  }

  ghost function AllRecorded(norm: string -> string, current: seq<string>, ds: seq<Decision>,
      maximum: nat): seq<Decision>
    requires Required(|Combined(norm, current, ds)|, maximum) <= |Removals(ds)|
  {
    Recorded(norm, current, ds) + Removals(ds)[..Required(|Combined(norm, current, ds)|, maximum)]
  }

  // ---- why the result fits ----

  predicate Picks(norm: string -> string, current: seq<string>, removing: bool, d: Decision) {
    if removing then d.action == Remove else Adds(norm, current, d)
  }

  // The keys of the removals, or of the additions.
  ghost function PickedKeys(norm: string -> string, current: seq<string>, removing: bool,
      ds: seq<Decision>): seq<string> {
    if ds == [] then []
    else
      var last := ds[|ds| - 1];
      var before := PickedKeys(norm, current, removing, ds[..|ds| - 1]);
      if Picks(norm, current, removing, last) then before + [norm(Trim(last.value))] else before
  }

  lemma KeysSnoc(norm: string -> string, skills: seq<string>, last: string)
    ensures Keys(norm, skills + [last]) == Keys(norm, skills) + [norm(last)]
  {
    assert (skills + [last])[..|skills|] == skills;
  }

  lemma {:induction false} PickedAreKeys(norm: string -> string, current: seq<string>, ds: seq<Decision>)
    ensures PickedKeys(norm, current, true, ds) == Keys(norm, Values(Removals(ds)))
    ensures PickedKeys(norm, current, false, ds) == Keys(norm, Additions(norm, current, ds))
  {
    if ds != [] {
      var init, last := ds[..|ds| - 1], ds[|ds| - 1];
      PickedAreKeys(norm, current, init);
      if last.action == Remove {
        var removals := Removals(init) + [Trimmed(last, Remove)];
        assert removals[..|removals| - 1] == Removals(init);
        KeysSnoc(norm, Values(Removals(init)), Trim(last.value));
      }
      KeysSnoc(norm, Additions(norm, current, init), Trim(last.value));
    }
  }

  lemma {:induction false} PickedDistinct(norm: string -> string, current: seq<string>, removing: bool,
      ds: seq<Decision>)
    requires Distinct(DecisionKeys(norm, ds))
    ensures Distinct(PickedKeys(norm, current, removing, ds))
    ensures forall k :: k in PickedKeys(norm, current, removing, ds) ==> k in DecisionKeys(norm, ds)
  {
    if ds != [] {
      var init, last := ds[..|ds| - 1], ds[|ds| - 1];
      LastFresh(DecisionKeys(norm, init), norm(Trim(last.value)));
      PickedDistinct(norm, current, removing, init);
      DistinctConcat(PickedKeys(norm, current, removing, init), [norm(Trim(last.value))]);
    }
  }

  lemma {:induction false} PickedFrom(norm: string -> string, current: seq<string>, removing: bool,
      ds: seq<Decision>, k: string)
    returns (i: nat)
    requires k in PickedKeys(norm, current, removing, ds)
    ensures i < |ds| && Picks(norm, current, removing, ds[i]) && norm(Trim(ds[i].value)) == k
  {
    i := |ds| - 1;
    if !(Picks(norm, current, removing, ds[i]) && norm(Trim(ds[i].value)) == k) {
      i := PickedFrom(norm, current, removing, ds[..i], k);
    }
  }

  lemma {:induction false} WithoutNothing(norm: string -> string, skills: seq<string>)
    ensures Without(norm, skills, []) == skills
  {
    if skills != [] {
      WithoutNothing(norm, skills[..|skills| - 1]);
    }
  }

  lemma {:induction false} WithoutOneMore(norm: string -> string, skills: seq<string>, dropped: seq<string>,
      key: string)
    ensures Without(norm, skills, dropped + [key]) == Without(norm, Without(norm, skills, dropped), [key])
  {
    if skills != [] {
      var init, last := skills[..|skills| - 1], skills[|skills| - 1];
      WithoutOneMore(norm, init, dropped, key);
      var kept := Without(norm, init, dropped);
      if norm(last) !in dropped {
        assert (kept + [last])[..|kept|] == kept;
      }
    }
  }

  lemma {:induction false} WithoutKeys(norm: string -> string, skills: seq<string>, dropped: seq<string>)
    ensures forall k :: k in Keys(norm, Without(norm, skills, dropped)) <==> k in Keys(norm, skills) && k !in dropped
  {
    if skills != [] {
      var init, last := skills[..|skills| - 1], skills[|skills| - 1];
      WithoutKeys(norm, init, dropped);
      KeysSnoc(norm, Without(norm, init, dropped), last);
    }
  }

  lemma {:induction false} WithoutDistinct(norm: string -> string, skills: seq<string>, dropped: seq<string>)
    requires Distinct(Keys(norm, skills))
    ensures Distinct(Keys(norm, Without(norm, skills, dropped)))
  {
    if skills != [] {
      var init, last := skills[..|skills| - 1], skills[|skills| - 1];
      LastFresh(Keys(norm, init), norm(last));
      WithoutDistinct(norm, init, dropped);
      WithoutKeys(norm, init, dropped);
      KeysSnoc(norm, Without(norm, init, dropped), last);
      DistinctConcat(Keys(norm, Without(norm, init, dropped)), [norm(last)]);
    }
  }

  lemma LastFresh(keys: seq<string>, last: string)
    requires Distinct(keys + [last])
    ensures Distinct(keys) && last !in keys
  {
    var all := keys + [last];
    forall i, j | 0 <= i < j < |keys| ensures keys[i] != keys[j] {
      assert all[i] != all[j];
    }
    forall i | 0 <= i < |keys| ensures keys[i] != last {
      assert all[i] != all[|keys|];
    }
  }

  // Dropping one key that occurs takes at least one skill, and just one if keys are
  // distinct.
  lemma {:induction false} DropOne(norm: string -> string, skills: seq<string>, key: string)
    ensures |Without(norm, skills, [key])| <= |skills|
    ensures key in Keys(norm, skills) ==> |Without(norm, skills, [key])| < |skills|
    ensures key !in Keys(norm, skills) ==> Without(norm, skills, [key]) == skills
    ensures key in Keys(norm, skills) && Distinct(Keys(norm, skills)) ==> |Without(norm, skills, [key])| == |skills| - 1
  {
    if skills != [] {
      var init, last := skills[..|skills| - 1], skills[|skills| - 1];
      DropOne(norm, init, key);
      if Distinct(Keys(norm, skills)) {
        LastFresh(Keys(norm, init), norm(last));
      }
    }
  }

  lemma {:induction false} DropMany(norm: string -> string, skills: seq<string>, dropped: seq<string>)
    requires Distinct(dropped) && forall k :: k in dropped ==> k in Keys(norm, skills)
    ensures |Without(norm, skills, dropped)| <= |skills| - |dropped|
    ensures Distinct(Keys(norm, skills)) ==> |Without(norm, skills, dropped)| == |skills| - |dropped|
  {
    if dropped == [] {
      WithoutNothing(norm, skills);
    } else {
      var init, key := dropped[..|dropped| - 1], dropped[|dropped| - 1];
      assert dropped == init + [key];
      LastFresh(init, key);
      DropMany(norm, skills, init);
      WithoutOneMore(norm, skills, init, key);
      WithoutKeys(norm, skills, init);
      if Distinct(Keys(norm, skills)) {
        WithoutDistinct(norm, skills, init);
      }
      DropOne(norm, Without(norm, skills, init), key);
    }
  }

  lemma {:induction false} WithoutConcat(norm: string -> string, a: seq<string>, b: seq<string>, dropped: seq<string>)
    ensures Without(norm, a + b, dropped) == Without(norm, a, dropped) + Without(norm, b, dropped)
  {
    if b == [] {
      assert a + b == a;
    } else {
      WithoutConcat(norm, a, b[..|b| - 1], dropped);
      assert (a + b)[..|a + b| - 1] == a + b[..|b| - 1];
    }
  }

  lemma {:induction false} WithoutStrangers(norm: string -> string, skills: seq<string>, dropped: seq<string>)
    requires forall k :: k in Keys(norm, skills) ==> k !in dropped
    ensures Without(norm, skills, dropped) == skills
  {
    if skills != [] {
      assert Keys(norm, skills)[|skills| - 1] in Keys(norm, skills);
      forall k | k in Keys(norm, skills[..|skills| - 1]) ensures k !in dropped {
        assert k in Keys(norm, skills);
      }
      WithoutStrangers(norm, skills[..|skills| - 1], dropped);
    }
  }

  lemma DroppedKeys(norm: string -> string, current: seq<string>, vacancy: seq<string>, allowRemovals: bool,
      ds: seq<Decision>, maximum: nat)
    requires AllAcceptable(norm, current, vacancy, allowRemovals, ds) && Distinct(DecisionKeys(norm, ds))
    requires Required(|Combined(norm, current, ds)|, maximum) <= |Removals(ds)|
    ensures Distinct(Dropped(norm, current, ds, maximum))
    ensures forall k :: k in Dropped(norm, current, ds, maximum) ==> k in Keys(norm, current)
  {
    PickedAreKeys(norm, current, ds);
    PickedDistinct(norm, current, true, ds);
    var all, dropped := PickedKeys(norm, current, true, ds), Dropped(norm, current, ds, maximum);
    forall i, j | 0 <= i < j < |dropped| ensures dropped[i] != dropped[j] {
      assert all[i] != all[j];
    }
    forall k | k in dropped ensures k in Keys(norm, current) {
      var i := PickedFrom(norm, current, true, ds, k);
      assert Acceptable(norm, current, vacancy, allowRemovals, ds[i]);
    }
  }

  lemma AdditionsAreNew(norm: string -> string, current: seq<string>, vacancy: seq<string>, allowRemovals: bool,
      ds: seq<Decision>)
    requires AllAcceptable(norm, current, vacancy, allowRemovals, ds) && Distinct(DecisionKeys(norm, ds))
    ensures Distinct(Keys(norm, Additions(norm, current, ds)))
    ensures forall k :: k in Keys(norm, Additions(norm, current, ds)) ==>
      k in Keys(norm, vacancy) && k !in Keys(norm, current)
  {
    PickedAreKeys(norm, current, ds);
    PickedDistinct(norm, current, false, ds);
    forall k | k in Keys(norm, Additions(norm, current, ds))
      ensures k in Keys(norm, vacancy) && k !in Keys(norm, current)
    {
      var i := PickedFrom(norm, current, false, ds, k);
      assert Acceptable(norm, current, vacancy, allowRemovals, ds[i]);
    }
  }

  lemma KeysConcat(norm: string -> string, a: seq<string>, b: seq<string>)
    ensures Keys(norm, a + b) == Keys(norm, a) + Keys(norm, b)
  {
  }

  // Main result on size: acceptable decisions always fit the limit, so the last limit
  // check cannot fail; with current skills that differ, the room is used up exactly.
  lemma ChosenFits(norm: string -> string, current: seq<string>, vacancy: seq<string>, allowRemovals: bool,
      ds: seq<Decision>, maximum: nat)
    requires AllAcceptable(norm, current, vacancy, allowRemovals, ds) && Distinct(DecisionKeys(norm, ds))
    requires Required(|Combined(norm, current, ds)|, maximum) <= |Removals(ds)|
    ensures |Chosen(norm, current, ds, maximum)| <= maximum
    ensures Distinct(Keys(norm, current)) ==>
      |Chosen(norm, current, ds, maximum)| ==
      if |current| + |Additions(norm, current, ds)| < maximum then |current| + |Additions(norm, current, ds)|
        else maximum
  {
    var added := Additions(norm, current, ds);
    var dropped := Dropped(norm, current, ds, maximum);
    DroppedKeys(norm, current, vacancy, allowRemovals, ds, maximum);
    AdditionsAreNew(norm, current, vacancy, allowRemovals, ds);
    KeysConcat(norm, current, added);
    forall k | k in dropped ensures k in Keys(norm, current + added) {
      assert k in Keys(norm, current);
    }
    if Distinct(Keys(norm, current)) {
      DistinctConcat(Keys(norm, current), Keys(norm, added));
    }
    DropMany(norm, current + added, dropped);
  }

  // Main result on content: the current skills the model did not have to drop, in their
  // order, and then every addition, each a vacancy skill.
  lemma ChosenIsKeptThenAdded(norm: string -> string, current: seq<string>, vacancy: seq<string>,
      allowRemovals: bool, ds: seq<Decision>, maximum: nat)
    requires AllAcceptable(norm, current, vacancy, allowRemovals, ds) && Distinct(DecisionKeys(norm, ds))
    requires Required(|Combined(norm, current, ds)|, maximum) <= |Removals(ds)|
    ensures Chosen(norm, current, ds, maximum) ==
      Without(norm, current, Dropped(norm, current, ds, maximum)) + Additions(norm, current, ds)
    ensures forall k :: k in Keys(norm, Additions(norm, current, ds)) ==>
      k in Keys(norm, vacancy) && k !in Keys(norm, current)
  {
    var added := Additions(norm, current, ds);
    var dropped := Dropped(norm, current, ds, maximum);
    DroppedKeys(norm, current, vacancy, allowRemovals, ds, maximum);
    AdditionsAreNew(norm, current, vacancy, allowRemovals, ds);
    WithoutConcat(norm, current, added, dropped);
    WithoutStrangers(norm, added, dropped);
  }

  // ---- the model's plan ----

  ghost predicate Plannable(norm: string -> string, current: seq<string>, vacancy: seq<string>, allowRemovals: bool,
      ds: seq<Decision>, maximum: nat) {
    ds != [] && AllAcceptable(norm, current, vacancy, allowRemovals, ds) && Distinct(DecisionKeys(norm, ds)) &&
    Required(|Combined(norm, current, ds)|, maximum) <= |Removals(ds)| && Chosen(norm, current, ds, maximum) != []
  }

  lemma AcceptableNext(norm: string -> string, current: seq<string>, vacancy: seq<string>, allowRemovals: bool,
      ds: seq<Decision>, i: nat)
    requires i < |ds| && AllAcceptable(norm, current, vacancy, allowRemovals, ds[..i])
    ensures AllAcceptable(norm, current, vacancy, allowRemovals, ds[..i + 1]) <==>
      Acceptable(norm, current, vacancy, allowRemovals, ds[i])
    ensures !Acceptable(norm, current, vacancy, allowRemovals, ds[i]) ==>
      !AllAcceptable(norm, current, vacancy, allowRemovals, ds)
  {
    var next := ds[..i + 1];
    assert next[i] == ds[i];
    forall j | 0 <= j < i ensures Acceptable(norm, current, vacancy, allowRemovals, next[j]) {
      assert ds[..i][j] == next[j];
    }
  }

  lemma DecisionsNext(norm: string -> string, current: seq<string>, ds: seq<Decision>, i: nat)
    requires i < |ds|
    ensures Additions(norm, current, ds[..i + 1]) ==
      if Adds(norm, current, ds[i]) then Additions(norm, current, ds[..i]) + [Trim(ds[i].value)]
      else Additions(norm, current, ds[..i])
    ensures Removals(ds[..i + 1]) ==
      if ds[i].action == Remove then Removals(ds[..i]) + [Trimmed(ds[i], Remove)] else Removals(ds[..i])
    ensures Recorded(norm, current, ds[..i + 1]) ==
      if ds[i].action == Remove then Recorded(norm, current, ds[..i])
      else Recorded(norm, current, ds[..i]) + [Trimmed(ds[i], if Adds(norm, current, ds[i]) then Add else Keep)]
  {
    assert ds[..i + 1][..i] == ds[..i] && ds[..i + 1][i] == ds[i];
  }

  // ---- what is made of each decision ----

  // Each decision to remove, and no other, asks for a removal, in the order given.
  lemma {:induction false} RemovalAt(ds: seq<Decision>, i: nat)
    requires i < |ds|
    ensures Removals(ds[..i]) <= Removals(ds)
    ensures ds[i].action == Remove ==>
      |Removals(ds[..i])| < |Removals(ds)| &&
      Removals(ds)[|Removals(ds[..i])|] == Decision(Trim(ds[i].value), Remove, Trim(ds[i].evidence))
    ensures ds[i].action != Remove ==> Removals(ds[..i + 1]) == Removals(ds[..i])
  {
    hide Trim;
    var n := |ds| - 1;
    assert ds[..i + 1][..i] == ds[..i];
    if i < n {
      RemovalAt(ds[..n], i);
      assert ds[..n][..i] == ds[..i] && ds[..n][..i + 1] == ds[..i + 1];
    } else {
      assert ds[..i + 1] == ds;
    }
  }

  // Each decision to add a skill the resume lacks, and no other, adds it, in the order given.
  lemma {:induction false} AdditionAt(norm: string -> string, current: seq<string>, ds: seq<Decision>, i: nat)
    requires i < |ds|
    ensures Additions(norm, current, ds[..i]) <= Additions(norm, current, ds)
    ensures
      var lacks := ds[i].action == Add &&
        forall j :: 0 <= j < |current| ==> norm(current[j]) != norm(Trim(ds[i].value));
      if lacks then
        |Additions(norm, current, ds[..i])| < |Additions(norm, current, ds)| &&
        Additions(norm, current, ds)[|Additions(norm, current, ds[..i])|] == Trim(ds[i].value)
      else Additions(norm, current, ds[..i + 1]) == Additions(norm, current, ds[..i])
  {
    hide Trim;
    var n := |ds| - 1;
    var key := norm(Trim(ds[i].value));
    assert ds[..i + 1][..i] == ds[..i];
    assert key in Keys(norm, current) <==> exists j :: 0 <= j < |current| && Keys(norm, current)[j] == key;
    hide Keys;
    if i < n {
      AdditionAt(norm, current, ds[..n], i);
      assert ds[..n][..i] == ds[..i] && ds[..n][..i + 1] == ds[..i + 1];
    } else {
      assert ds[..i + 1] == ds;
    }
  }

  // Every other decision is recorded: as an addition if it adds, as kept if it does not.
  lemma {:induction false} RecordedAt(norm: string -> string, current: seq<string>, ds: seq<Decision>, i: nat)
    requires i < |ds|
    ensures Recorded(norm, current, ds[..i]) <= Recorded(norm, current, ds)
    ensures ds[i].action == Remove ==> Recorded(norm, current, ds[..i + 1]) == Recorded(norm, current, ds[..i])
    ensures ds[i].action != Remove ==>
      |Recorded(norm, current, ds[..i])| < |Recorded(norm, current, ds)| &&
      Recorded(norm, current, ds)[|Recorded(norm, current, ds[..i])|] ==
        Decision(Trim(ds[i].value),
                 if ds[i].action == Add && norm(Trim(ds[i].value)) !in Keys(norm, current) then Add else Keep,
                 Trim(ds[i].evidence))
  {
    hide Trim, Keys;
    var n := |ds| - 1;
    assert ds[..i + 1][..i] == ds[..i];
    if i < n {
      RecordedAt(norm, current, ds[..n], i);
      assert ds[..n][..i] == ds[..i] && ds[..n][..i + 1] == ds[..i + 1];
    } else {
      assert ds[..i + 1] == ds;
    }
  }

  // Each skill whose key is not dropped stays, in order.
  lemma {:induction false} WithoutAt(norm: string -> string, skills: seq<string>, dropped: seq<string>, i: nat)
    requires i < |skills|
    ensures Without(norm, skills[..i], dropped) <= Without(norm, skills, dropped)
    ensures
      if norm(skills[i]) in dropped then Without(norm, skills[..i + 1], dropped) == Without(norm, skills[..i], dropped)
      else
        |Without(norm, skills[..i], dropped)| < |Without(norm, skills, dropped)| &&
        Without(norm, skills, dropped)[|Without(norm, skills[..i], dropped)|] == skills[i]
  {
    var n := |skills| - 1;
    assert skills[..i + 1][..i] == skills[..i];
    if i < n {
      WithoutAt(norm, skills[..n], dropped, i);
      assert skills[..n][..i] == skills[..i] && skills[..n][..i + 1] == skills[..i + 1];
    } else {
      assert skills[..i + 1] == skills;
    }
  }

  // A removal is made exactly if the ones named before it do not make room enough.
  lemma DroppedExactly(norm: string -> string, current: seq<string>, ds: seq<Decision>, maximum: nat, k: string)
    requires Required(|Combined(norm, current, ds)|, maximum) <= |Removals(ds)|
    ensures k in Dropped(norm, current, ds, maximum) <==>
      exists i :: 0 <= i < |ds| && Drops(norm, current, ds, maximum, i, k)
  {
    hide Trim, Keys, Values, Removals, Additions;
    var dropped := Dropped(norm, current, ds, maximum);
    if i :| 0 <= i < |ds| && Drops(norm, current, ds, maximum, i, k) {
      RemovalAt(ds, i);
      assert dropped[|Removals(ds[..i])|] == k;
    }
    if k in dropped {
      var n :| 0 <= n < |dropped| && dropped[n] == k;
      var i := RemovalBehind(ds, n);
      RemovalAt(ds, i);
      assert Drops(norm, current, ds, maximum, i, k);
    }
  }

  ghost predicate Drops(norm: string -> string, current: seq<string>, ds: seq<Decision>, maximum: nat, i: nat,
      k: string)
    requires i < |ds|
  {
    ds[i].action == Remove && norm(Trim(ds[i].value)) == k &&
    maximum + |Removals(ds[..i])| < |current| + |Additions(norm, current, ds)|
  }

  // Which decisions are acceptable: of a skill, with evidence, about a skill of the resume or
  // the vacancy; a removal only where it is allowed, and of a skill of the resume.
  lemma AcceptableTold(norm: string -> string, current: seq<string>, vacancy: seq<string>, allowRemovals: bool,
      d: Decision)
    ensures
      var key := norm(Trim(d.value));
      var has := exists j :: 0 <= j < |current| && norm(current[j]) == key;
      var asked := exists j :: 0 <= j < |vacancy| && norm(vacancy[j]) == key;
      Acceptable(norm, current, vacancy, allowRemovals, d) <==>
        key != "" && !Blank(d.evidence) &&
        ((d.action == Add && (has || asked)) || (d.action == Keep && (has || asked)) ||
         (d.action == Remove && allowRemovals && has))
  {
    hide Trim;
    KeyIn(norm, current, norm(Trim(d.value)));
    KeyIn(norm, vacancy, norm(Trim(d.value)));
    hide Keys;
  }

  lemma KeyIn(norm: string -> string, skills: seq<string>, key: string)
    ensures key in Keys(norm, skills) <==> exists j :: 0 <= j < |skills| && norm(skills[j]) == key
  {
    var keys := Keys(norm, skills);
    if key in keys {
      var j :| 0 <= j < |keys| && keys[j] == key;
      assert norm(skills[j]) == key;
    }
    if j :| 0 <= j < |skills| && norm(skills[j]) == key {
      assert keys[j] == key;
    }
  }

  // Which decision asks for the n-th removal.
  lemma {:induction false} RemovalBehind(ds: seq<Decision>, n: nat) returns (i: nat)
    requires n < |Removals(ds)|
    ensures i < |ds| && ds[i].action == Remove && |Removals(ds[..i])| == n
  {
    hide Trim;
    i := |ds| - 1;
    if n < |Removals(ds[..i])| {
      var last := i;
      i := RemovalBehind(ds[..last], n);
      assert ds[..last][..i] == ds[..i];
    }
  }

  // What a loop over the first decisions has collected.
  ghost predicate ReadUpTo(norm: string -> string, current: seq<string>, ds: seq<Decision>, i: nat,
                           combined: seq<string>, removals: seq<Decision>, recorded: seq<Decision>)
    requires i <= |ds|
  {
    combined == current + Additions(norm, current, ds[..i]) && removals == Removals(ds[..i]) &&
    recorded == Recorded(norm, current, ds[..i])
  }

  lemma ReadNext(norm: string -> string, current: seq<string>, ds: seq<Decision>, i: nat,
                 combined: seq<string>, removals: seq<Decision>, recorded: seq<Decision>)
    requires i < |ds| && ReadUpTo(norm, current, ds, i, combined, removals, recorded)
    ensures ds[i].action == Remove ==>
      ReadUpTo(norm, current, ds, i + 1, combined, removals + [Trimmed(ds[i], Remove)], recorded)
    ensures Adds(norm, current, ds[i]) ==>
      ReadUpTo(norm, current, ds, i + 1, combined + [Trim(ds[i].value)], removals, recorded + [Trimmed(ds[i], Add)])
    ensures ds[i].action != Remove && !Adds(norm, current, ds[i]) ==>
      ReadUpTo(norm, current, ds, i + 1, combined, removals, recorded + [Trimmed(ds[i], Keep)])
  {
    DecisionsNext(norm, current, ds, i);
  }

  method ReadDecisions(norm: string -> string, current: seq<string>, vacancy: seq<string>, allowRemovals: bool,
      ds: seq<Decision>)
    returns (ok: bool, combined: seq<string>, removals: seq<Decision>, recorded: seq<Decision>)
    ensures ok <==> AllAcceptable(norm, current, vacancy, allowRemovals, ds) && Distinct(DecisionKeys(norm, ds))
    ensures ok ==> ReadUpTo(norm, current, ds, |ds|, combined, removals, recorded)
  {
    combined, removals, recorded := current, [], [];
    var seen: set<string> := {};
    ghost var keys := DecisionKeys(norm, ds);
    assert current + [] == current;
    for i := 0 to |ds|
      invariant Unrepeated(seen, keys, i)
      invariant AllAcceptable(norm, current, vacancy, allowRemovals, ds[..i])
      invariant ReadUpTo(norm, current, ds, i, combined, removals, recorded)
    {
      var value := Trim(ds[i].value);
      var key := norm(value);
      AcceptableNext(norm, current, vacancy, allowRemovals, ds, i);
      UnrepeatedNext(seen, keys, i);
      ReadNext(norm, current, ds, i, combined, removals, recorded);
      if !Acceptable(norm, current, vacancy, allowRemovals, ds[i]) || key in seen {
        return false, [], [], [];
      }
      seen := seen + {key};
      if ds[i].action == Remove {
        removals := removals + [Trimmed(ds[i], Remove)];
      } else if Adds(norm, current, ds[i]) {
        combined := combined + [value];
        recorded := recorded + [Trimmed(ds[i], Add)];
      } else {
        recorded := recorded + [Trimmed(ds[i], Keep)];
      }
    }
    UnrepeatedAll(seen, keys);
    assert ds[..|ds|] == ds;
    ok := true;
  }

  method Filter(norm: string -> string, skills: seq<string>, dropped: seq<string>) returns (r: seq<string>)
    ensures r == Without(norm, skills, dropped)
  {
    r := [];
    for i := 0 to |skills|
      invariant r == Without(norm, skills[..i], dropped)
    {
      assert skills[..i + 1][..i] == skills[..i];
      if norm(skills[i]) !in dropped {
        r := r + [skills[i]];
      }
    }
    assert skills[..|skills|] == skills;
  }

  // ---- the closing validation of a plan's decisions ----

  predicate Recordable(norm: string -> string, d: Decision) {
    norm(d.value) != "" && Trim(d.evidence) != "" && d.action != Other
  }

  ghost predicate ValidDecisions(norm: string -> string, ds: seq<Decision>) {
    (forall i :: 0 <= i < |ds| ==> Recordable(norm, ds[i])) && Distinct(Keys(norm, Values(ds)))
  }

  // ResumeTailoringPlan.Validate, as far as skills go.
  method ValidateDecisions(norm: string -> string, ds: seq<Decision>) returns (ok: bool)
    ensures ok <==> ValidDecisions(norm, ds)
  {
    var seen: set<string> := {};
    ghost var keys := Keys(norm, Values(ds));
    for i := 0 to |ds|
      invariant Unrepeated(seen, keys, i)
      invariant forall j :: 0 <= j < i ==> Recordable(norm, ds[j])
    {
      var key := norm(ds[i].value);
      assert key == keys[i];
      UnrepeatedNext(seen, keys, i);
      if !Recordable(norm, ds[i]) || key in seen {
        return false;
      }
      seen := seen + {key};
    }
    UnrepeatedAll(seen, keys);
    ok := true;
  }

  // The keys decided on split into those recorded and those of the removals.
  lemma {:induction false} RecordedKeys(norm: string -> string, current: seq<string>, ds: seq<Decision>)
    requires Distinct(DecisionKeys(norm, ds))
    ensures Distinct(Keys(norm, Values(Recorded(norm, current, ds))))
    ensures forall k :: k in Keys(norm, Values(Recorded(norm, current, ds))) ==>
      k in DecisionKeys(norm, ds) && k !in PickedKeys(norm, current, true, ds)
  {
    hide Trim, Values, Keys;
    if ds == [] {
      KeysOfNothing(norm);
    } else {
      var init, last := ds[..|ds| - 1], ds[|ds| - 1];
      LastFresh(DecisionKeys(norm, init), norm(Trim(last.value)));
      RecordedKeys(norm, current, init);
      PickedDistinct(norm, current, true, init);
      if last.action != Remove {
        var made := Recorded(norm, current, ds)[|Recorded(norm, current, init)|];
        ValuesSnoc(norm, Recorded(norm, current, init), made);
        DistinctConcat(Keys(norm, Values(Recorded(norm, current, init))), [norm(made.value)]);
      }
    }
  }

  lemma {:induction false} RecordedAreRecordable(norm: string -> string, current: seq<string>, vacancy: seq<string>,
      allowRemovals: bool, ds: seq<Decision>)
    requires AllAcceptable(norm, current, vacancy, allowRemovals, ds)
    ensures forall d :: d in Recorded(norm, current, ds) || d in Removals(ds) ==> Recordable(norm, d)
  {
    hide Trim, Keys;
    if ds != [] {
      var init, last := ds[..|ds| - 1], ds[|ds| - 1];
      RecordedAreRecordable(norm, current, vacancy, allowRemovals, init);
      assert Acceptable(norm, current, vacancy, allowRemovals, last);
      TrimTwice(last.evidence);
    }
  }

  lemma JoinedValid(norm: string -> string, a: seq<Decision>, b: seq<Decision>)
    requires ValidDecisions(norm, a) && ValidDecisions(norm, b)
    requires forall k :: k in Keys(norm, Values(a)) ==> k !in Keys(norm, Values(b))
    ensures ValidDecisions(norm, a + b)
  {
    hide Recordable, Values, Keys, Distinct;
    assert Keys(norm, Values(a + b)) == Keys(norm, Values(a)) + Keys(norm, Values(b));
    DistinctConcat(Keys(norm, Values(a)), Keys(norm, Values(b)));
  }

  lemma RecordedValid(norm: string -> string, current: seq<string>, vacancy: seq<string>, allowRemovals: bool,
      ds: seq<Decision>)
    requires AllAcceptable(norm, current, vacancy, allowRemovals, ds) && Distinct(DecisionKeys(norm, ds))
    ensures ValidDecisions(norm, Recorded(norm, current, ds))
  {
    RecordedAreRecordable(norm, current, vacancy, allowRemovals, ds);
    RecordedKeys(norm, current, ds);
    hide Recordable, Values, Keys, Removals, Recorded, DecisionKeys, Distinct, Acceptable;
    forall i | 0 <= i < |Recorded(norm, current, ds)| ensures Recordable(norm, Recorded(norm, current, ds)[i]) {
      assert Recorded(norm, current, ds)[i] in Recorded(norm, current, ds);
    }
  }

  lemma RemovalsValid(norm: string -> string, current: seq<string>, vacancy: seq<string>, allowRemovals: bool,
      ds: seq<Decision>)
    requires AllAcceptable(norm, current, vacancy, allowRemovals, ds) && Distinct(DecisionKeys(norm, ds))
    ensures ValidDecisions(norm, Removals(ds))
  {
    RecordedAreRecordable(norm, current, vacancy, allowRemovals, ds);
    PickedDistinct(norm, current, true, ds);
    PickedAreKeys(norm, current, ds);
    hide Recordable, Values, Keys, Removals, PickedKeys, DecisionKeys, Distinct, Acceptable;
    forall i | 0 <= i < |Removals(ds)| ensures Recordable(norm, Removals(ds)[i]) {
      assert Removals(ds)[i] in Removals(ds);
    }
  }

  lemma DistinctInit(keys: seq<string>, n: nat)
    requires n <= |keys| && Distinct(keys)
    ensures Distinct(keys[..n])
  {
    forall i, j | 0 <= i < j < n ensures keys[..n][i] != keys[..n][j] {
      assert keys[i] != keys[j];
    }
  }

  lemma FirstKeys(norm: string -> string, ds: seq<Decision>, n: nat)
    requires n <= |ds|
    ensures Keys(norm, Values(ds[..n])) == Keys(norm, Values(ds))[..n]
  {
    hide Values, Keys;
  }

  lemma FirstValid(norm: string -> string, ds: seq<Decision>, n: nat)
    requires n <= |ds| && ValidDecisions(norm, ds)
    ensures ValidDecisions(norm, ds[..n])
  {
    FirstKeys(norm, ds, n);
    DistinctInit(Keys(norm, Values(ds)), n);
    hide Recordable, Distinct, Values, Keys;
  }

  // Acceptable decisions are recorded as decisions that pass the closing validation.
  lemma AllRecordedValid(norm: string -> string, current: seq<string>, vacancy: seq<string>, allowRemovals: bool,
      ds: seq<Decision>, maximum: nat)
    requires AllAcceptable(norm, current, vacancy, allowRemovals, ds) && Distinct(DecisionKeys(norm, ds))
    requires Required(|Combined(norm, current, ds)|, maximum) <= |Removals(ds)|
    ensures ValidDecisions(norm, AllRecorded(norm, current, ds, maximum))
  {
    var n := Required(|Combined(norm, current, ds)|, maximum);
    PickedDistinct(norm, current, true, ds);
    RecordedValid(norm, current, vacancy, allowRemovals, ds);
    RecordedKeys(norm, current, ds);
    PickedAreKeys(norm, current, ds);
    RemovalsValid(norm, current, vacancy, allowRemovals, ds);
    FirstValid(norm, Removals(ds), n);
    FirstKeys(norm, Removals(ds), n);
    hide ValidDecisions, Recordable, Values, Keys, Removals, Recorded, Combined, PickedKeys, DecisionKeys;
    hide AllAcceptable;
    JoinedValid(norm, Recorded(norm, current, ds), Removals(ds)[..n]);
  }

  // planFromDecisions: succeeds exactly on plannable decisions. The final comparison
  // with the limit and the closing validation are there; by ChosenFits and AllRecordedValid
  // they never reject.
  method PlanFromDecisions(norm: string -> string, current: seq<string>, vacancy: seq<string>, allowRemovals: bool,
                           ds: seq<Decision>, maximum: nat) returns (r: Option<Plan>)
    requires maximum >= 1
    ensures r.Some? <==> Plannable(norm, current, vacancy, allowRemovals, ds, maximum)
    ensures r.Some? ==> r.value.skills == Chosen(norm, current, ds, maximum)
    ensures r.Some? ==> r.value.decisions == AllRecorded(norm, current, ds, maximum)
    ensures r.Some? ==> (r.value.changed <==> r.value.skills != current)
  {
    if ds == [] {
      return None;
    }
    var ok, combined, removals, recorded := ReadDecisions(norm, current, vacancy, allowRemovals, ds);
    if !ok {
      return None;
    }
    assert ds[..|ds|] == ds;
    var required := Required(|combined|, maximum);
    if required > |removals| {
      return None;
    }
    var skills := Apply(norm, combined, removals, required);
    ChosenFits(norm, current, vacancy, allowRemovals, ds, maximum);
    if skills == [] {
      return None;
    }
    if |skills| > maximum {
      return None;
    }
    var selected := recorded + removals[..required];
    AllRecordedValid(norm, current, vacancy, allowRemovals, ds, maximum);
    var valid := ValidateDecisions(norm, selected);
    if !valid {
      return None;
    }
    r := Some(Plan(skills, selected, skills != current));
  }

  // Drops the skills of the first removals.
  method Apply(norm: string -> string, combined: seq<string>, removals: seq<Decision>, required: nat)
      returns (skills: seq<string>)
    requires required <= |removals|
    ensures skills == Without(norm, combined, Keys(norm, Values(removals))[..required])
  {
    var applied := removals[..required];
    assert Keys(norm, Values(applied)) == Keys(norm, Values(removals))[..required];
    if |applied| == 0 {
      WithoutNothing(norm, combined);
      return combined;
    }
    skills := Filter(norm, combined, Keys(norm, Values(applied)));
  }

  // ---- the deterministic policy ----

  // The vacancy skills that are new, each once, in vacancy order.
  function NewSkills(norm: string -> string, current: seq<string>, vacancy: seq<string>): seq<string> {
    if vacancy == [] then []
    else
      var before := NewSkills(norm, current, vacancy[..|vacancy| - 1]);
      var skill := Trim(vacancy[|vacancy| - 1]);
      if norm(skill) == "" || norm(skill) in Keys(norm, current) || norm(skill) in Keys(norm, before) then before
      else before + [skill]
  }

  const EVIDENCE := "vacancy.key_skills"

  // One decision for each of the vacancy's skills, in vacancy order: current ones are
  // kept, the others added.
  function PolicyDecisions(norm: string -> string, current: seq<string>, vacancy: seq<string>): seq<Decision> {
    if vacancy == [] then []
    else
      var before := PolicyDecisions(norm, current, vacancy[..|vacancy| - 1]);
      var skill := Trim(vacancy[|vacancy| - 1]);
      if norm(skill) == "" || norm(skill) in Keys(norm, Values(before)) then before
      else before + [Decision(skill, if norm(skill) in Keys(norm, current) then Keep else Add, EVIDENCE)]
  }

  ghost predicate Wellformed(norm: string -> string, current: seq<string>) {
    Distinct(Keys(norm, current)) && "" !in Keys(norm, current)
  }

  method CheckCurrent(norm: string -> string, current: seq<string>) returns (ok: bool, seen: set<string>)
    ensures ok <==> Wellformed(norm, current)
    ensures ok ==> Seen(seen, Keys(norm, current))
  {
    seen := {};
    ghost var keys := Keys(norm, current);
    for i := 0 to |current|
      invariant Unrepeated(seen, keys, i) && "" !in keys[..i]
    {
      var key := norm(current[i]);
      assert key == keys[i];
      UnrepeatedNext(seen, keys, i);
      if key == "" || key in seen {
        return false, {};
      }
      assert keys[..i + 1] == keys[..i] + [key];
      seen := seen + {key};
    }
    UnrepeatedAll(seen, keys);
    assert keys[..|current|] == keys;
    ok := true;
  }

  ghost predicate SeenEither(seen: set<string>, a: seq<string>, b: seq<string>) {
    forall k :: k in seen <==> k in a || k in b
  }

  // Decisions are made about skills seen, and about every added one.
  ghost predicate DecidesSeen(seen: set<string>, added: seq<string>, decided: seq<string>) {
    (forall k :: k in decided ==> k in seen) && (forall k :: k in added ==> k in decided)
  }

  lemma ValuesSnoc(norm: string -> string, ds: seq<Decision>, last: Decision)
    ensures Keys(norm, Values(ds + [last])) == Keys(norm, Values(ds)) + [norm(last.value)]
  {
    assert (ds + [last])[..|ds|] == ds;
    KeysSnoc(norm, Values(ds), last.value);
  }

  // The loop over the vacancy's skills.
  method CollectNew(norm: string -> string, ghost current: seq<string>, vacancy: seq<string>, known: set<string>)
    returns (added: seq<string>, decisions: seq<Decision>)
    requires Seen(known, Keys(norm, current))
    ensures added == NewSkills(norm, current, vacancy)
    ensures decisions == PolicyDecisions(norm, current, vacancy)
  {
    added, decisions := [], [];
    var seen := known;
    for i := 0 to |vacancy|
      invariant added == NewSkills(norm, current, vacancy[..i])
      invariant decisions == PolicyDecisions(norm, current, vacancy[..i])
      invariant SeenEither(seen, Keys(norm, current), Keys(norm, added))
      invariant DecidesSeen(seen, Keys(norm, added), Keys(norm, Values(decisions)))
    {
      var skill := Trim(vacancy[i]);
      var key := norm(skill);
      assert vacancy[..i + 1][..i] == vacancy[..i];
      if key == "" {
      } else if key in seen {
        if key !in Keys(norm, Values(decisions)) {
          var kept := Decision(skill, Keep, EVIDENCE);
          ValuesSnoc(norm, decisions, kept);
          decisions := decisions + [kept];
        }
      } else {
        KeysSnoc(norm, added, skill);
        var made := Decision(skill, Add, EVIDENCE);
        ValuesSnoc(norm, decisions, made);
        seen := seen + {key};
        added := added + [skill];
        decisions := decisions + [made];
      }
    }
    assert vacancy[..|vacancy|] == vacancy;
  }

  // What the policy records of a skill: kept if the resume has it and added if not, on the
  // evidence of the vacancy.
  lemma {:induction false} PolicyTold(norm: string -> string, current: seq<string>, vacancy: seq<string>, d: Decision)
    requires d in PolicyDecisions(norm, current, vacancy)
    ensures d.evidence == "vacancy.key_skills"
    ensures d.action == if norm(d.value) in Keys(norm, current) then Keep else Add
    ensures exists i :: 0 <= i < |vacancy| && d.value == Trim(vacancy[i])
  {
    hide Trim, Keys, Values;
    var n := |vacancy| - 1;
    if d in PolicyDecisions(norm, current, vacancy[..n]) {
      PolicyTold(norm, current, vacancy[..n], d);
      var i :| 0 <= i < n && d.value == Trim(vacancy[..n][i]);
      assert d.value == Trim(vacancy[i]);
    } else {
      assert d.value == Trim(vacancy[n]);
    }
  }

  // What the policy records passes the closing validation.
  lemma PolicyValid(norm: string -> string, current: seq<string>, vacancy: seq<string>)
    ensures ValidDecisions(norm, PolicyDecisions(norm, current, vacancy))
  {
    hide Trim, PolicyDecisions, Values, Keys, Distinct, NamesSkill;
    var ds := PolicyDecisions(norm, current, vacancy);
    DecidesEach(norm, current, vacancy);
    PolicyEvidence(norm, current, vacancy);
    forall i | 0 <= i < |ds| ensures Recordable(norm, ds[i]) {
      assert ds[i] in ds;
      assert Keys(norm, Values(ds))[i] == norm(ds[i].value);
      assert Keys(norm, Values(ds))[i] in Keys(norm, Values(ds));
    }
  }

  lemma {:induction false} PolicyEvidence(norm: string -> string, current: seq<string>, vacancy: seq<string>)
    ensures forall d :: d in PolicyDecisions(norm, current, vacancy) ==> Trim(d.evidence) != "" && d.action != Other
  {
    BlankExactly(EVIDENCE);
    assert EVIDENCE[0] in EVIDENCE;
    if vacancy != [] {
      PolicyEvidence(norm, current, vacancy[..|vacancy| - 1]);
    }
  }

  // AddVacancySkillsProcessor.Plan. By PolicyValid the closing validation never rejects.
  method AddVacancySkills(norm: string -> string, current: seq<string>, vacancy: seq<string>, maximum: nat)
      returns (r: Option<Plan>)
    ensures r.Some? <==> Wellformed(norm, current) && |current| + |NewSkills(norm, current, vacancy)| <= maximum
    ensures r.Some? ==> r.value.skills == current + NewSkills(norm, current, vacancy)
    ensures r.Some? ==> r.value.decisions == PolicyDecisions(norm, current, vacancy)
    ensures r.Some? ==> (r.value.changed <==> r.value.skills != current)
  {
    if |current| > maximum {
      return None;
    }
    var ok, seen := CheckCurrent(norm, current);
    if !ok {
      return None;
    }
    var added, decisions := CollectNew(norm, current, vacancy, seen);
    var combined := current + added;
    if |combined| > maximum {
      return None;
    }
    PolicyValid(norm, current, vacancy);
    var valid := ValidateDecisions(norm, decisions);
    if !valid {
      return None;
    }
    r := Some(Plan(combined, decisions, |combined| != |current|));
  }

  ghost predicate NamesSkill(norm: string -> string, vacancy: seq<string>, key: string) {
    exists i :: 0 <= i < |vacancy| && norm(Trim(vacancy[i])) == key
  }

  lemma NamesOneMore(norm: string -> string, vacancy: seq<string>)
    requires vacancy != []
    ensures forall k :: NamesSkill(norm, vacancy, k) <==>
      NamesSkill(norm, vacancy[..|vacancy| - 1], k) || k == norm(Trim(vacancy[|vacancy| - 1]))
  {
    var n := |vacancy| - 1;
    forall k
      ensures NamesSkill(norm, vacancy, k) <==> NamesSkill(norm, vacancy[..n], k) || k == norm(Trim(vacancy[n]))
    {
      if i :| 0 <= i < n && norm(Trim(vacancy[..n][i])) == k {
        assert norm(Trim(vacancy[i])) == k;
      }
      if i :| 0 <= i < |vacancy| && norm(Trim(vacancy[i])) == k {
        assert i < n ==> norm(Trim(vacancy[..n][i])) == k;
      }
    }
  }

  // One decision for each skill the vacancy names, and none for any other.
  lemma {:induction false} DecidesEach(norm: string -> string, current: seq<string>, vacancy: seq<string>)
    ensures Distinct(Keys(norm, Values(PolicyDecisions(norm, current, vacancy))))
    ensures forall k :: k in Keys(norm, Values(PolicyDecisions(norm, current, vacancy))) <==>
      k != "" && NamesSkill(norm, vacancy, k)
  {
    hide NamesSkill, Trim, Keys, Values;
    if vacancy != [] {
      var init, skill := vacancy[..|vacancy| - 1], Trim(vacancy[|vacancy| - 1]);
      DecidesEach(norm, current, init);
      NamesOneMore(norm, vacancy);
      var before := PolicyDecisions(norm, current, init);
      if PolicyDecisions(norm, current, vacancy) != before {
        ValuesSnoc(norm, before, PolicyDecisions(norm, current, vacancy)[|before|]);
        DistinctConcat(Keys(norm, Values(before)), [norm(skill)]);
      }
    } else {
      NamesNothing(norm);
      KeysOfNothing(norm);
    }
  }

  lemma NamesNothing(norm: string -> string)
    ensures forall k :: !NamesSkill(norm, [], k)
  {
  }

  lemma AdditionsSnoc(norm: string -> string, current: seq<string>, ds: seq<Decision>, last: Decision)
    ensures Additions(norm, current, ds + [last]) ==
      if Adds(norm, current, last) then Additions(norm, current, ds) + [Trim(last.value)]
      else Additions(norm, current, ds)
  {
    assert (ds + [last])[..|ds|] == ds;
  }

  lemma KeysOfNothing(norm: string -> string)
    ensures Keys(norm, []) == [] && Values([]) == []
  {
  }

  // The added skills are the decided ones the resume lacks.
  lemma {:induction false} AddedAreDecided(norm: string -> string, current: seq<string>, vacancy: seq<string>)
    ensures forall k :: k in Keys(norm, NewSkills(norm, current, vacancy)) <==>
      k !in Keys(norm, current) && k in Keys(norm, Values(PolicyDecisions(norm, current, vacancy)))
  {
    hide Trim;
    KeysOfNothing(norm);
    hide Values, Keys;
    if vacancy != [] {
      var init, skill := vacancy[..|vacancy| - 1], Trim(vacancy[|vacancy| - 1]);
      AddedAreDecided(norm, current, init);
      var before := PolicyDecisions(norm, current, init);
      KeysSnoc(norm, NewSkills(norm, current, init), skill);
      if PolicyDecisions(norm, current, vacancy) != before {
        ValuesSnoc(norm, before, PolicyDecisions(norm, current, vacancy)[|before|]);
      }
    }
  }

  // The recorded decisions say what was done: what they add, read as the model's
  // decisions are, is what the policy added.
  lemma {:induction false} DecisionsSayIt(norm: string -> string, current: seq<string>, vacancy: seq<string>)
    ensures Additions(norm, current, PolicyDecisions(norm, current, vacancy)) == NewSkills(norm, current, vacancy)
  {
    hide Trim, Values;
    if vacancy != [] {
      var init, skill := vacancy[..|vacancy| - 1], Trim(vacancy[|vacancy| - 1]);
      DecisionsSayIt(norm, current, init);
      AddedAreDecided(norm, current, init);
      TrimTwice(vacancy[|vacancy| - 1]);
      var before := PolicyDecisions(norm, current, init);
      if PolicyDecisions(norm, current, vacancy) != before {
        AdditionsSnoc(norm, current, before, PolicyDecisions(norm, current, vacancy)[|before|]);
      }
    }
  }

  // Main result on the policy: the current list is a prefix, all keys stay distinct,
  // and exactly the vacancy's skills are covered besides the current ones.
  lemma NewSkillsDistinct(norm: string -> string, current: seq<string>, vacancy: seq<string>)
    requires Distinct(Keys(norm, current))
    ensures Distinct(Keys(norm, current + NewSkills(norm, current, vacancy)))
  {
    var added := NewSkills(norm, current, vacancy);
    NewSkillsNew(norm, current, vacancy);
    KeysConcat(norm, current, added);
    DistinctConcat(Keys(norm, current), Keys(norm, added));
  }

  lemma {:induction false} NewSkillsNew(norm: string -> string, current: seq<string>, vacancy: seq<string>)
    ensures Distinct(Keys(norm, NewSkills(norm, current, vacancy)))
    ensures forall k :: k in Keys(norm, NewSkills(norm, current, vacancy)) ==> k !in Keys(norm, current)
  {
    if vacancy != [] {
      var init, skill := vacancy[..|vacancy| - 1], Trim(vacancy[|vacancy| - 1]);
      var before := NewSkills(norm, current, init);
      NewSkillsNew(norm, current, init);
      if NewSkills(norm, current, vacancy) != before {
        KeysSnoc(norm, before, skill);
        DistinctConcat(Keys(norm, before), [norm(skill)]);
      }
    }
  }

  lemma {:induction false} NewSkillsCover(norm: string -> string, current: seq<string>, vacancy: seq<string>, i: nat)
    requires i < |vacancy| && norm(Trim(vacancy[i])) != ""
    ensures norm(Trim(vacancy[i])) in Keys(norm, current) ||
      norm(Trim(vacancy[i])) in Keys(norm, NewSkills(norm, current, vacancy))
  {
    var init, skill := vacancy[..|vacancy| - 1], Trim(vacancy[|vacancy| - 1]);
    KeysSnoc(norm, NewSkills(norm, current, init), skill);
    if i < |init| {
      assert init[i] == vacancy[i];
      NewSkillsCover(norm, current, init, i);
    }
  }

  lemma {:induction false} NewSkillsFromVacancy(norm: string -> string, current: seq<string>, vacancy: seq<string>,
      j: nat)
    returns (i: nat)
    requires j < |NewSkills(norm, current, vacancy)|
    ensures i < |vacancy| && Trim(vacancy[i]) == NewSkills(norm, current, vacancy)[j]
  {
    i := |vacancy| - 1;
    if j < |NewSkills(norm, current, vacancy[..i])| {
      i := NewSkillsFromVacancy(norm, current, vacancy[..i], j);
    }
  }
}
