// Resolving stored answers of core/questionnaire.go against a concrete questionnaire.
module AnswerResolution {
  import opened Wrappers
  import opened Sorting
  import opened Uniqueness
  import opened Text
  import opened Questionnaires

  // ---- one question ----

  ghost function First(keys: seq<string>, key: string): (i: nat)
    requires key in keys
    ensures i < |keys| && keys[i] == key
  {
    if keys[0] == key then 0 else First(keys[1..], key) + 1
  }

  // The id of the option with the given normalised text.
  ghost function IdFor(env: Env, options: seq<QuestionOption>, key: string): string
    requires key in OptionTexts(env, options)
  {
    options[First(OptionTexts(env, options), key)].id
  }

  ghost predicate Offered(env: Env, options: seq<QuestionOption>, selected: seq<string>) {
    forall k :: 0 <= k < |selected| ==> Norm(env, selected[k]) in OptionTexts(env, options)
  }

  ghost predicate Choosable(env: Env, options: seq<QuestionOption>, selected: seq<string>) {
    Distinct(OptionTexts(env, options)) && Distinct(NormAll(env, selected)) && Offered(env, options, selected)
  }

  ghost function IdsOf(env: Env, options: seq<QuestionOption>, selected: seq<string>): (ids: seq<string>)
    requires Offered(env, options, selected)
    ensures |ids| == |selected|
  {
    if selected == [] then []
    else
      IdsOf(env, options, selected[..|selected| - 1]) + [IdFor(env, options, Norm(env, selected[|selected| - 1]))]
  }

  lemma {:induction false} IdsAt(env: Env, options: seq<QuestionOption>, selected: seq<string>, k: nat)
    requires Offered(env, options, selected) && k < |selected|
    ensures Norm(env, selected[k]) in OptionTexts(env, options)
    ensures IdsOf(env, options, selected)[k] == IdFor(env, options, Norm(env, selected[k]))
  {
    if k < |selected| - 1 {
      IdsAt(env, options, selected[..|selected| - 1], k);
    }
  }

  // The index resolveOptions builds over the first options: option text to id.
  ghost predicate Indexes(index: map<string, string>, keys: seq<string>, options: seq<QuestionOption>, n: nat)
    requires n <= |keys| == |options|
  {
    (forall key :: key in index <==> key in keys[..n]) &&
    forall i :: 0 <= i < n ==> keys[i] in index && index[keys[i]] == options[i].id
  }

  lemma IndexesNext(index: map<string, string>, keys: seq<string>, options: seq<QuestionOption>, n: nat)
    requires n < |keys| == |options| && Indexes(index, keys, options, n) && keys[n] !in index
    ensures Indexes(index[keys[n] := options[n].id], keys, options, n + 1)
  {
    assert keys[..n + 1] == keys[..n] + [keys[n]];
  }

  method IndexOptions(env: Env, options: seq<QuestionOption>) returns (r: Option<map<string, string>>)
    ensures r.Some? <==> Distinct(OptionTexts(env, options))
    ensures r.Some? ==> Indexes(r.value, OptionTexts(env, options), options, |options|)
  {
    var index: map<string, string> := map[];
    ghost var keys := OptionTexts(env, options);
    for i := 0 to |options|
      invariant Indexes(index, keys, options, i) && Distinct(keys[..i])
    {
      var key := Norm(env, options[i].text);
      assert key == keys[i];
      if key in index {
        RepeatedKey(keys, i);
        return None;
      }
      NewKey(keys, i);
      IndexesNext(index, keys, options, i);
      index := index[key := options[i].id];
    }
    assert keys[..|options|] == keys;
    r := Some(index);
  }

  // The index gives the chosen option's id.
  lemma IndexAgrees(env: Env, index: map<string, string>, options: seq<QuestionOption>, key: string)
    requires Indexes(index, OptionTexts(env, options), options, |options|)
    ensures key in index <==> key in OptionTexts(env, options)
    ensures key in index ==> index[key] == IdFor(env, options, key)
  {
    var keys := OptionTexts(env, options);
    assert keys[..|options|] == keys;
    if key in index {
      assert keys[First(keys, key)] in index;
    }
  }

  // The ids chosen for the first selected texts.
  ghost predicate Chosen(env: Env, options: seq<QuestionOption>, selected: seq<string>, ids: seq<string>, n: nat)
    requires n <= |selected|
  {
    |ids| == n &&
    forall k :: 0 <= k < n ==>
      Norm(env, selected[k]) in OptionTexts(env, options) &&
      ids[k] == IdFor(env, options, Norm(env, selected[k]))
  }

  lemma ChosenNext(env: Env, options: seq<QuestionOption>, selected: seq<string>, ids: seq<string>, n: nat)
    requires n < |selected| && Chosen(env, options, selected, ids, n)
    requires Norm(env, selected[n]) in OptionTexts(env, options)
    ensures Chosen(env, options, selected, ids + [IdFor(env, options, Norm(env, selected[n]))], n + 1)
  {
  }

  lemma ChosenAll(env: Env, options: seq<QuestionOption>, selected: seq<string>, ids: seq<string>)
    requires Chosen(env, options, selected, ids, |selected|)
    ensures Offered(env, options, selected) && ids == IdsOf(env, options, selected)
  {
    forall k | 0 <= k < |selected| ensures ids[k] == IdsOf(env, options, selected)[k] {
      IdsAt(env, options, selected, k);
    }
  }

  lemma NotOffered(env: Env, options: seq<QuestionOption>, selected: seq<string>, i: nat)
    requires i < |selected| && Norm(env, selected[i]) !in OptionTexts(env, options)
    ensures !Offered(env, options, selected)
  {
  }

  method ResolveOptions(env: Env, options: seq<QuestionOption>, selected: seq<string>) returns (r: Option<seq<string>>)
    ensures r.Some? <==> Choosable(env, options, selected)
    ensures r.Some? ==> r.value == IdsOf(env, options, selected)
  {
    var index := IndexOptions(env, options);
    if index.None? {
      return None;
    }
    r := Choose(env, options, index.value, selected);
  }

  method Choose(env: Env, ghost options: seq<QuestionOption>, index: map<string, string>, selected: seq<string>)
    returns (r: Option<seq<string>>)
    requires Indexes(index, OptionTexts(env, options), options, |options|)
    ensures r.Some? <==> Distinct(NormAll(env, selected)) && Offered(env, options, selected)
    ensures r.Some? ==> r.value == IdsOf(env, options, selected)
  {
    var result: seq<string> := [];
    var seen: set<string> := {};
    ghost var keys := NormAll(env, selected);
    assert Unrepeated(seen, keys, 0) && Chosen(env, options, selected, result, 0);
    hide Chosen, Offered, Indexes, Unrepeated, Distinct;
    for i := 0 to |selected|
      invariant Unrepeated(seen, keys, i)
      invariant Chosen(env, options, selected, result, i)
    {
      var key := Norm(env, selected[i]);
      assert key == keys[i];
      UnrepeatedNext(seen, keys, i);
      if key in seen {
        return None;
      }
      seen := seen + {key};
      IndexAgrees(env, index, options, key);
      if key !in index {
        NotOffered(env, options, selected, i);
        return None;
      }
      ChosenNext(env, options, selected, result, i);
      result := result + [index[key]];
    }
    UnrepeatedAll(seen, keys);
    ChosenAll(env, options, selected, result);
    r := Some(result);
  }

  // What a stored answer resolves to for one runtime question.
  ghost function Resolve(env: Env, q: Question, a: StoredAnswer): Option<ResolvedAnswer> {
    if q.kind == TEXT then
      if a.text != "" && a.selected == [] then Some(ResolvedAnswer(q.id, [], a.text)) else None
    else if q.kind == SINGLE || q.kind == MULTIPLE then
      if a.text == "" && (if q.kind == SINGLE then |a.selected| == 1 else a.selected != []) &&
        Choosable(env, q.options, a.selected)
      then Some(ResolvedAnswer(q.id, IdsOf(env, q.options, a.selected), ""))
      else None
    else None
  }

  method ResolveStoredAnswer(env: Env, q: Question, a: StoredAnswer) returns (r: Option<ResolvedAnswer>)
    ensures r == Resolve(env, q, a)
  {
    if q.kind == CODE {
      return None;
    }
    if q.kind == TEXT {
      if a.text == "" || a.selected != [] {
        return None;
      }
      return Some(ResolvedAnswer(q.id, [], a.text));
    }
    if q.kind == SINGLE || q.kind == MULTIPLE {
      if a.text != "" || (q.kind == SINGLE && |a.selected| != 1) || (q.kind == MULTIPLE && |a.selected| == 0) {
        return None;
      }
      var ids := ResolveOptions(env, q.options, a.selected);
      if ids.None? {
        return None;
      }
      return Some(ResolvedAnswer(q.id, ids.value, ""));
    }
    r := None;
  }

  // ---- which answers resolve, kind by kind ----

  // Some offered option has the text.
  ghost predicate NamesOption(env: Env, q: Question, i: int, text: string) {
    0 <= i < |q.options| && Norm(env, q.options[i].text) == Norm(env, text)
  }

  ghost predicate NamesSome(env: Env, q: Question, text: string) {
    exists i :: NamesOption(env, q, i, text)
  }

  lemma OfferedExactly(env: Env, q: Question, selected: seq<string>)
    ensures Offered(env, q.options, selected) <==>
      forall k :: 0 <= k < |selected| ==> NamesSome(env, q, selected[k])
  {
    var texts := OptionTexts(env, q.options);
    if Offered(env, q.options, selected) {
      forall k | 0 <= k < |selected| ensures NamesSome(env, q, selected[k]) {
        var i :| 0 <= i < |texts| && texts[i] == Norm(env, selected[k]);
        assert NamesOption(env, q, i, selected[k]);
      }
    }
    if forall k :: 0 <= k < |selected| ==> NamesSome(env, q, selected[k]) {
      forall k | 0 <= k < |selected| ensures Norm(env, selected[k]) in texts {
        var i :| NamesOption(env, q, i, selected[k]);
        assert texts[i] == Norm(env, selected[k]);
      }
    }
  }

  // A text question takes exactly a text, and that is the answer.
  lemma TextResolvesExactly(env: Env, q: Question, a: StoredAnswer)
    requires q.kind == "text"
    ensures Resolve(env, q, a).Some? <==> a.text != "" && a.selected == []
    ensures Resolve(env, q, a).Some? ==> Resolve(env, q, a).value == ResolvedAnswer(q.id, [], a.text)
  {
  }

  // A single choice takes exactly one offered option, a multiple choice one or more different
  // ones,
  lemma ChoiceResolvesExactly(env: Env, q: Question, a: StoredAnswer)
    requires ValidQuestion(env, q) && (q.kind == "single" || q.kind == "multiple")
    ensures Resolve(env, q, a).Some? <==>
      a.text == "" && a.selected != [] && (q.kind == "single" ==> |a.selected| == 1) &&
      (forall k, l :: 0 <= k < l < |a.selected| ==> Norm(env, a.selected[k]) != Norm(env, a.selected[l])) &&
      forall k :: 0 <= k < |a.selected| ==> NamesSome(env, q, a.selected[k])
  {
    OfferedExactly(env, q, a.selected);
    DifferentTexts(env, a.selected);
    hide Offered, NamesSome, IdsOf;
    ValidHasDistinctOptions(env, q);
  }

  lemma ValidHasDistinctOptions(env: Env, q: Question)
    requires ValidQuestion(env, q) && (q.kind == SINGLE || q.kind == MULTIPLE)
    ensures Distinct(OptionTexts(env, q.options))
  {
  }

  lemma DifferentTexts(env: Env, selected: seq<string>)
    ensures Distinct(NormAll(env, selected)) <==>
      forall k, l :: 0 <= k < l < |selected| ==> Norm(env, selected[k]) != Norm(env, selected[l])
  {
    var texts := NormAll(env, selected);
    if Distinct(texts) {
      forall k, l | 0 <= k < l < |selected| ensures Norm(env, selected[k]) != Norm(env, selected[l]) {
        assert texts[k] != texts[l];
      }
    }
  }

  // and the answer holds their ids, in the order of the answer.
  lemma ChoiceNamesItsOptions(env: Env, q: Question, a: StoredAnswer, k: nat, i: nat)
    requires ValidQuestion(env, q) && (q.kind == "single" || q.kind == "multiple") && Resolve(env, q, a).Some?
    requires k < |a.selected| && NamesOption(env, q, i, a.selected[k])
    ensures Resolve(env, q, a).value.questionId == q.id && Resolve(env, q, a).value.text == ""
    ensures |Resolve(env, q, a).value.selectedIds| == |a.selected|
    ensures Resolve(env, q, a).value.selectedIds[k] == q.options[i].id
  {
    var texts := OptionTexts(env, q.options);
    IdsAt(env, q.options, a.selected, k);
    OneOfEach(texts, First(texts, Norm(env, a.selected[k])), i);
  }

  lemma OneOfEach(keys: seq<string>, i: nat, j: nat)
    requires Distinct(keys) && i < |keys| && j < |keys| && keys[i] == keys[j]
    ensures i == j
  {
  }

  // Code questions, and any of an unknown kind, take no answer.
  lemma NothingElseResolves(env: Env, q: Question, a: StoredAnswer)
    requires q.kind != "text" && q.kind != "single" && q.kind != "multiple"
    ensures Resolve(env, q, a).None?
  {
  }

  // ---- answers follow the fingerprint ----

  // The chosen ids name, in the order of the answer, options with the selected texts.
  ghost predicate Names(env: Env, q: Question, ids: seq<string>, selected: seq<string>) {
    |ids| == |selected| && forall k :: 0 <= k < |ids| ==> Named(env, q, ids[k], Norm(env, selected[k]))
  }

  ghost predicate Named(env: Env, q: Question, id: string, text: string) {
    exists i :: 0 <= i < |q.options| && q.options[i].id == id && Norm(env, q.options[i].text) == text
  }

  lemma ResolvedNames(env: Env, q: Question, a: StoredAnswer)
    requires Resolve(env, q, a).Some?
    ensures Resolve(env, q, a).value.questionId == q.id && Resolve(env, q, a).value.text == a.text
    ensures Names(env, q, Resolve(env, q, a).value.selectedIds, a.selected)
  {
    var ids := Resolve(env, q, a).value.selectedIds;
    forall k | 0 <= k < |ids| ensures Named(env, q, ids[k], Norm(env, a.selected[k])) {
      IdsAt(env, q.options, a.selected, k);
    }
  }

  lemma SameOffer(env: Env, p: Question, q: Question, selected: seq<string>)
    requires forall t :: t in OptionTexts(env, p.options) <==> t in OptionTexts(env, q.options)
    ensures Offered(env, p.options, selected) <==> Offered(env, q.options, selected)
  {
  }

  // Questions that differ in presentation only take the same answers, choosing options
  // of the same text in the same order.
  lemma SameContentSameAnswers(env: Env, p: Question, q: Question, a: StoredAnswer)
    requires SameContent(env, p, q)
    ensures Resolve(env, p, a).Some? <==> Resolve(env, q, a).Some?
    ensures Resolve(env, p, a).Some? ==>
      Names(env, p, Resolve(env, p, a).value.selectedIds, a.selected) &&
      Names(env, q, Resolve(env, q, a).value.selectedIds, a.selected) &&
      Resolve(env, p, a).value.text == Resolve(env, q, a).value.text
  {
    var op, oq := OptionTexts(env, p.options), OptionTexts(env, q.options);
    DistinctPermutation(op, oq);
    SameMultisetSameElements(op, oq);
    SameOffer(env, p, q, a.selected);
    if Resolve(env, p, a).Some? {
      ResolvedNames(env, p, a);
      ResolvedNames(env, q, a);
    }
  }

  // Main result: a stored answer may be reused across valid questions with the same
  // fingerprint when the texts are free of the signature's separators.
  lemma FingerprintJustifiesReuse(env: Env, p: Question, q: Question, a: StoredAnswer)
    requires ValidQuestion(env, p) && ValidQuestion(env, q)
    requires SeparatorFree(env, p) && AllFree(OptionTexts(env, q.options), UNIT_SEPARATOR)
    requires Fingerprint(env, p) == Fingerprint(env, q) && NoCollision(env, Signature(env, p), Signature(env, q))
    ensures Resolve(env, p, a).Some? <==> Resolve(env, q, a).Some?
    ensures Resolve(env, p, a).Some? ==>
      Names(env, p, Resolve(env, p, a).value.selectedIds, a.selected) &&
      Names(env, q, Resolve(env, q, a).value.selectedIds, a.selected) &&
      Resolve(env, p, a).value.text == Resolve(env, q, a).value.text
  {
    FingerprintDecides(env, p, q);
    SameContentSameAnswers(env, p, q, a);
  }

  // Selecting one option by its own text.
  function Selecting(q: Question, i: nat): StoredAnswer
    requires i < |q.options|
  {
    StoredAnswer(q.text, "", [q.options[i].text], "", true)
  }

  lemma SelectingResolves(env: Env, q: Question, i: nat)
    requires ValidQuestion(env, q) && i < |q.options|
    ensures Resolve(env, q, Selecting(q, i)).Some?
  {
    var a := Selecting(q, i);
    assert NormAll(env, a.selected) == [OptionTexts(env, q.options)[i]];
    assert Offered(env, q.options, a.selected);
  }

  // Reuse exactly: of two valid questions with equal fingerprints, the first one
  // separator-free, every stored answer resolves for both or for neither if and only if
  // no option of the second contains the unit separator.
  lemma ReuseExactly(env: Env, p: Question, q: Question)
    requires ValidQuestion(env, p) && ValidQuestion(env, q) && SeparatorFree(env, p)
    requires Fingerprint(env, p) == Fingerprint(env, q) && NoCollision(env, Signature(env, p), Signature(env, q))
    ensures (forall a :: Resolve(env, p, a).Some? <==> Resolve(env, q, a).Some?) <==>
      AllFree(OptionTexts(env, q.options), UNIT_SEPARATOR)
  {
    hide Joined, SortBy, Signature;
    var op, oq := OptionTexts(env, p.options), OptionTexts(env, q.options);
    if AllFree(oq, UNIT_SEPARATOR) {
      forall a ensures Resolve(env, p, a).Some? <==> Resolve(env, q, a).Some? {
        FingerprintJustifiesReuse(env, p, q, a);
      }
    } else {
      var i :| 0 <= i < |oq| && !Free(oq[i], UNIT_SEPARATOR);
      SelectingResolves(env, q, i);
      SignatureParts(env, p, q);
      NotOffered(env, p.options, Selecting(q, i).selected, 0);
      assert Resolve(env, p, Selecting(q, i)).None?;
    }
  }

  lemma WordIsNormal(lower: char -> char, s: string)
    requires s != "" && forall i :: 0 <= i < |s| ==> !IsSpace(s[i]) && lower(s[i]) == s[i]
    ensures NormalizeQuestionText(lower, s) == s
  {
    TrimLeftShape(s);
    assert Trim(s) == s;
    assert Lowered(lower, s) == s;
    assert RunLength(s) == |s| by { RunIsAll(s); }
    assert s[|s|..] == "" && s[..|s|] == s;
    assert Words(s) == [s] + Words("");
    assert Words("") == [];
    assert Words(s) == [s];
  }

  lemma {:induction false} RunIsAll(s: string)
    requires forall i :: 0 <= i < |s| ==> !IsSpace(s[i])
    ensures RunLength(s) == |s|
  {
    if s != "" {
      RunIsAll(s[1..]);
    }
  }

  // Without that condition the fingerprint does not decide the content: the unit
  // separator is no whitespace, so an option may contain it. Two options "a" and "b"
  // and the one option that joins them share a fingerprint, and an answer for the
  // first question does not resolve for the second.
  lemma SeparatorsCollide(lower: char -> char, env: Env) returns (p: Question, q: Question, a: StoredAnswer)
    requires PlainLetters(lower) && forall s :: env.norm(s) == NormalizeQuestionText(lower, s)
    ensures ValidQuestion(env, p) && ValidQuestion(env, q) && SeparatorFree(env, p)
    ensures Fingerprint(env, p) == Fingerprint(env, q) && !SameContent(env, p, q)
    ensures Resolve(env, p, a).Some? && Resolve(env, q, a).None?
  {
    WordIsNormal(lower, "a");
    WordIsNormal(lower, "b");
    WordIsNormal(lower, JOINT);
    p, q, a := CollidingPair(env);
  }

  lemma CollidingPair(env: Env) returns (p: Question, q: Question, a: StoredAnswer)
    requires Norm(env, "a") == "a" && Norm(env, "b") == "b" && Norm(env, JOINT) == JOINT
    ensures ValidQuestion(env, p) && ValidQuestion(env, q) && SeparatorFree(env, p)
    ensures Fingerprint(env, p) == Fingerprint(env, q) && !SameContent(env, p, q)
    ensures Resolve(env, p, a).Some? && Resolve(env, q, a).None?
  {
    p := Question("1", "a", SINGLE, [QuestionOption("1", "a"), QuestionOption("2", "b")]);
    q := Question("1", "a", SINGLE, [QuestionOption("1", JOINT)]);
    a := StoredAnswer("a", "", ["a"], "", true);
    TwoOptions(env);
    OneOption(env);
    assert |multiset(["a", "b"])| == 2 && |multiset([JOINT])| == 1;
    ResolvesFirst(env, p, a);
    NotOffered(env, q.options, a.selected, 0);
  }

  lemma ResolvesFirst(env: Env, p: Question, a: StoredAnswer)
    requires p.kind == SINGLE && a.text == "" && a.selected == ["a"] && Norm(env, "a") == "a"
    requires ValidOptions(env, p.options) && OptionTexts(env, p.options) == ["a", "b"]
    ensures Resolve(env, p, a).Some?
  {
    assert OptionTexts(env, p.options)[0] == "a";
    assert Offered(env, p.options, a.selected);
  }

  const JOINT := ['a', UNIT_SEPARATOR, 'b']

  ghost predicate PlainLetters(lower: char -> char) {
    lower('a') == 'a' && lower('b') == 'b' && lower(UNIT_SEPARATOR) == UNIT_SEPARATOR
  }

  lemma TwoOptions(env: Env)
    requires Norm(env, "a") == "a" && Norm(env, "b") == "b"
    ensures var options := [QuestionOption("1", "a"), QuestionOption("2", "b")];
      OptionTexts(env, options) == ["a", "b"] && ValidOptions(env, options) &&
      Joined(SortBy(OptionTexts(env, options), Identity), UNIT_SEPARATOR) == JOINT
  {
    var options := [QuestionOption("1", "a"), QuestionOption("2", "b")];
    assert OptionTexts(env, options) == ["a", "b"];
    SortPair("a", "b");
    PairJoined();
    assert FilledOption(env, options[0]) && FilledOption(env, options[1]);
    assert Distinct(["a", "b"]);
  }

  lemma PairJoined()
    ensures Joined(["a", "b"], UNIT_SEPARATOR) == JOINT
  {
    assert ["a", "b"][1..] == ["b"];
  }

  lemma OneOption(env: Env)
    requires Norm(env, JOINT) == JOINT
    ensures var options := [QuestionOption("1", JOINT)];
      OptionTexts(env, options) == [JOINT] && ValidOptions(env, options) &&
      Joined(SortBy(OptionTexts(env, options), Identity), UNIT_SEPARATOR) == JOINT
  {
    var options := [QuestionOption("1", JOINT)];
    assert OptionTexts(env, options) == [JOINT];
    assert SortBy([JOINT], Identity) == [JOINT];
    assert FilledOption(env, options[0]);
  }

  lemma SortPair(x: string, y: string)
    requires Ordering.Less(x, y)
    ensures SortBy([x, y], Identity) == [x, y]
  {
    Ordering.LessAsymmetric(x, y);
    assert [x, y][1..] == [y];
    assert SortBy([y], Identity) == Insert(y, [], Identity) == [y];
  }

  // ---- a whole block ----

  ghost predicate FingerprintFits(env: Env, q: Question, a: StoredAnswer) {
    a.fingerprint == "" || a.fingerprint == Fingerprint(env, q)
  }

  // The answer is meant for the question and fits it.
  ghost predicate Fits(env: Env, q: Question, a: StoredAnswer) {
    Norm(env, a.question) == Norm(env, q.text) && FingerprintFits(env, q, a) && Resolve(env, q, a).Some?
  }

  ghost predicate SomeFits(env: Env, q: Question, answers: seq<StoredAnswer>) {
    exists j :: 0 <= j < |answers| && Fits(env, q, answers[j])
  }

  // The answer is stored for the question's text, with its fingerprint or none, and resolves.
  lemma FitsExactly(env: Env, q: Question, a: StoredAnswer)
    ensures Fits(env, q, a) <==>
      Norm(env, a.question) == Norm(env, q.text) &&
      (a.fingerprint == "" || a.fingerprint == env.hash(Signature(env, q))) && Resolve(env, q, a).Some?
  {
  }

  // Questions and answers correspond one to one by their normalised texts, and each
  // question's answer fits it.
  ghost predicate Matched(env: Env, questions: seq<Question>, answers: seq<StoredAnswer>) {
    multiset(QuestionTexts(env, questions)) == multiset(AnswerTexts(env, answers)) &&
    forall i :: 0 <= i < |questions| ==> SomeFits(env, questions[i], answers)
  }

  // Answers that fit their questions one by one are matched, so texts, single and multiple
  // choices all go through.
  lemma FittingGoThrough(env: Env, questions: seq<Question>, answers: seq<StoredAnswer>)
    requires |questions| == |answers| && forall i :: 0 <= i < |questions| ==> Fits(env, questions[i], answers[i])
    ensures Matched(env, questions, answers)
  {
    hide Resolve;
    assert QuestionTexts(env, questions) == AnswerTexts(env, answers);
    forall i | 0 <= i < |questions| ensures SomeFits(env, questions[i], answers) {
      assert Fits(env, questions[i], answers[i]);
    }
  }

  // Of one text question, one single choice and one multiple choice, and answers that give a
  // text, one option and two different options.
  lemma EachKindGoesThrough(env: Env, questions: seq<Question>, answers: seq<StoredAnswer>, i: nat, j: nat, k: nat)
    requires |questions| == |answers| == 3 && ValidQuestionnaire(env, questions)
    requires questions[0].kind == "text" && questions[1].kind == "single" && questions[2].kind == "multiple"
    requires i < |questions[1].options| && j < k < |questions[2].options|
    requires forall n :: 0 <= n < 3 ==> answers[n].question == questions[n].text && answers[n].fingerprint == ""
    requires answers[0].text != "" && answers[0].selected == []
    requires answers[1].text == "" && answers[1].selected == [questions[1].options[i].text]
    requires answers[2].text == ""
    requires answers[2].selected == [questions[2].options[j].text, questions[2].options[k].text]
    ensures Matched(env, questions, answers)
  {
    hide Resolve, Matched;
    TextResolvesExactly(env, questions[0], answers[0]);
    assert NamesOption(env, questions[1], i, answers[1].selected[0]);
    ChoiceResolvesExactly(env, questions[1], answers[1]);
    var options := OptionTexts(env, questions[2].options);
    assert options[j] != options[k];
    assert NamesOption(env, questions[2], j, answers[2].selected[0]);
    assert NamesOption(env, questions[2], k, answers[2].selected[1]);
    ChoiceResolvesExactly(env, questions[2], answers[2]);
    FittingGoThrough(env, questions, answers);
  }

  // The index of the first answers of a block: normalised question text to answer.
  ghost predicate HoldsFirst(stored: map<string, StoredAnswer>, keys: seq<string>, answers: seq<StoredAnswer>, n: nat)
    requires n <= |keys| == |answers|
  {
    (forall key :: key in stored <==> key in keys[..n]) &&
    forall j :: 0 <= j < n ==> keys[j] in stored && stored[keys[j]] == answers[j]
  }

  ghost predicate Holds(env: Env, stored: map<string, StoredAnswer>, answers: seq<StoredAnswer>) {
    HoldsFirst(stored, AnswerTexts(env, answers), answers, |answers|)
  }

  lemma HoldsNext(stored: map<string, StoredAnswer>, keys: seq<string>, answers: seq<StoredAnswer>, n: nat)
    requires n < |keys| == |answers| && HoldsFirst(stored, keys, answers, n) && keys[n] !in stored
    ensures HoldsFirst(stored[keys[n] := answers[n]], keys, answers, n + 1)
  {
    assert keys[..n + 1] == keys[..n] + [keys[n]];
  }

  // Where a stored text stands among the answers.
  lemma StoredAt(env: Env, stored: map<string, StoredAnswer>, answers: seq<StoredAnswer>, key: string) returns (j: nat)
    requires Holds(env, stored, answers) && key in stored
    ensures j < |answers| && Norm(env, answers[j].question) == key && stored[key] == answers[j]
  {
    var keys := AnswerTexts(env, answers);
    assert keys[..|answers|] == keys;
    j := First(keys, key);
  }

  lemma StoredText(env: Env, stored: map<string, StoredAnswer>, answers: seq<StoredAnswer>, j: nat)
    requires Holds(env, stored, answers) && j < |answers|
    ensures Norm(env, answers[j].question) in stored && stored[Norm(env, answers[j].question)] == answers[j]
  {
    assert AnswerTexts(env, answers)[j] == Norm(env, answers[j].question);
  }

  method IndexAnswers(env: Env, answers: seq<StoredAnswer>) returns (r: Option<map<string, StoredAnswer>>)
    ensures r.Some? <==> Distinct(AnswerTexts(env, answers))
    ensures r.Some? ==> Holds(env, r.value, answers)
  {
    var stored: map<string, StoredAnswer> := map[];
    ghost var keys := AnswerTexts(env, answers);
    for i := 0 to |answers|
      invariant HoldsFirst(stored, keys, answers, i) && Distinct(keys[..i])
    {
      var key := Norm(env, answers[i].question);
      assert key == keys[i];
      if key in stored {
        RepeatedKey(keys, i);
        return None;
      }
      NewKey(keys, i);
      HoldsNext(stored, keys, answers, i);
      stored := stored[key := answers[i]];
    }
    assert keys[..|answers|] == keys;
    r := Some(stored);
  }

  // Looking the answer up by text finds the one that fits, if any does.
  lemma LookupFits(env: Env, stored: map<string, StoredAnswer>, answers: seq<StoredAnswer>, q: Question)
    requires Holds(env, stored, answers)
    ensures SomeFits(env, q, answers) <==> Norm(env, q.text) in stored && Fits(env, q, stored[Norm(env, q.text)])
  {
    if j :| 0 <= j < |answers| && Fits(env, q, answers[j]) {
      StoredText(env, stored, answers, j);
    }
    if Norm(env, q.text) in stored {
      var j := StoredAt(env, stored, answers, Norm(env, q.text));
    }
  }

  // Each resolved answer is that of a fitting stored answer, in presentation order.
  ghost predicate Presented(env: Env, questions: seq<Question>, answers: seq<StoredAnswer>,
      resolved: seq<ResolvedAnswer>) {
    |resolved| == |questions| &&
    forall i :: 0 <= i < |questions| ==> PresentedAt(env, questions[i], answers, resolved[i])
  }

  ghost predicate PresentedAt(env: Env, q: Question, answers: seq<StoredAnswer>, resolved: ResolvedAnswer) {
    exists j :: 0 <= j < |answers| && Fits(env, q, answers[j]) && resolved == Resolve(env, q, answers[j]).value
  }

  // One question of a strict resolution.
  method ResolveNext(env: Env, q: Question, stored: map<string, StoredAnswer>, ghost answers: seq<StoredAnswer>)
    returns (r: Option<ResolvedAnswer>)
    requires Holds(env, stored, answers) && ValidQuestion(env, q)
    ensures r.Some? <==> SomeFits(env, q, answers)
    ensures r.Some? ==> Norm(env, q.text) in stored && PresentedAt(env, q, answers, r.value)
  {
    LookupFits(env, stored, answers, q);
    var key := Norm(env, q.text);
    if key !in stored {
      return None;
    }
    var answer := stored[key];
    ghost var j := StoredAt(env, stored, answers, key);
    if answer.fingerprint != "" {
      var fingerprint := QuestionFingerprint(env, q);
      if fingerprint != Some(answer.fingerprint) {
        return None;
      }
    }
    r := ResolveStoredAnswer(env, q, answer);
  }

  // Main result: a block resolves exactly when its answers correspond one to one to the
  // questions and fit them; the plan then answers each question, in presentation order,
  // with ids of that question's own options.
  method ResolveAnswerBlock(env: Env, questions: seq<Question>, block: AnswerBlock) returns (r: Option<AnswerPlan>)
    ensures r.Some? <==>
      (ValidQuestionnaire(env, questions) && ValidBlock(env, block) && block.kind != "conversation" &&
       Matched(env, questions, block.answers))
    ensures r.Some? ==> Presented(env, questions, block.answers, r.value.answers)
    ensures r.Some? ==> r.value.fingerprint == env.hash(AttemptSignature(env, questions)) && r.value.tag == block.tag
    ensures r.Some? ==> r.value.name == block.name
  {
    var fingerprint := ObservedAttemptFingerprint(env, questions);
    if fingerprint.None? {
      return None;
    }
    var valid := ValidateAnswerBlock(env, block);
    if !valid || (block.kind != "qualification" && block.kind != "vacancy") {
      return None;
    }
    var stored := IndexAnswers(env, block.answers);
    if stored.None? {
      MatchedIsDistinct(env, questions, block.answers);
      return None;
    }
    var answers := ResolveAll(env, questions, stored.value, block.answers);
    if answers.None? {
      return None;
    }
    r := Some(AnswerPlan(block.tag, block.name, fingerprint.value, answers.value));
  }

  lemma MatchedIsDistinct(env: Env, questions: seq<Question>, answers: seq<StoredAnswer>)
    requires ValidQuestionnaire(env, questions) && !Distinct(AnswerTexts(env, answers))
    ensures !Matched(env, questions, answers)
  {
    if Matched(env, questions, answers) {
      DistinctPermutation(QuestionTexts(env, questions), AnswerTexts(env, answers));
    }
  }

  // The loop over the questions.
  method ResolveEach(env: Env, questions: seq<Question>, stored: map<string, StoredAnswer>,
      ghost answers: seq<StoredAnswer>)
    returns (r: Option<seq<ResolvedAnswer>>, used: set<string>, ghost unfit: nat)
    requires AllValid(env, questions) && Holds(env, stored, answers)
    ensures r.None? ==> unfit < |questions| && !SomeFits(env, questions[unfit], answers)
    ensures r.Some? ==> Presented(env, questions, answers, r.value)
    ensures r.Some? ==> Seen(used, QuestionTexts(env, questions)) && used <= stored.Keys
  {
    var resolved: seq<ResolvedAnswer> := [];
    used := {};
    unfit := 0;
    ghost var keys := QuestionTexts(env, questions);
    for i := 0 to |questions|
      invariant Seen(used, keys[..i]) && used <= stored.Keys
      invariant Presented(env, questions[..i], answers, resolved)
    {
      var next := ResolveNext(env, questions[i], stored, answers);
      if next.None? {
        return None, used, i;
      }
      PresentedNext(env, questions, answers, resolved, next.value);
      SeenNext(used, keys, i);
      used := used + {Norm(env, questions[i].text)};
      resolved := resolved + [next.value];
    }
    assert keys[..|questions|] == keys && questions[..|questions|] == questions;
    r := Some(resolved);
  }

  lemma PresentedNext(env: Env, questions: seq<Question>, answers: seq<StoredAnswer>, resolved: seq<ResolvedAnswer>,
      next: ResolvedAnswer)
    requires |resolved| < |questions| && Presented(env, questions[..|resolved|], answers, resolved)
    requires PresentedAt(env, questions[|resolved|], answers, next)
    ensures Presented(env, questions[..|resolved| + 1], answers, resolved + [next])
  {
    var n := |resolved|;
    forall k | 0 <= k <= n ensures PresentedAt(env, questions[..n + 1][k], answers, (resolved + [next])[k]) {
      if k < n {
        assert PresentedAt(env, questions[..n][k], answers, resolved[k]);
      }
    }
  }

  // Every question is answered and no answer is left over.
  method ResolveAll(env: Env, questions: seq<Question>, stored: map<string, StoredAnswer>,
      ghost answers: seq<StoredAnswer>)
    returns (r: Option<seq<ResolvedAnswer>>)
    requires ValidQuestionnaire(env, questions) && Holds(env, stored, answers) && Distinct(AnswerTexts(env, answers))
    ensures r.Some? <==> Matched(env, questions, answers)
    ensures r.Some? ==> Presented(env, questions, answers, r.value)
  {
    var used;
    ghost var unfit;
    r, used, unfit := ResolveEach(env, questions, stored, answers);
    if r.None? {
      return;
    }
    SameSizeSameKeys(used, stored.Keys);
    CoveredIsMatched(env, questions, stored, answers, used, r.value);
    if |used| != |stored| {
      return None;
    }
  }

  lemma CoveredIsMatched(env: Env, questions: seq<Question>, stored: map<string, StoredAnswer>,
      answers: seq<StoredAnswer>,
                         used: set<string>, resolved: seq<ResolvedAnswer>)
    requires Distinct(QuestionTexts(env, questions)) && Holds(env, stored, answers) &&
      Distinct(AnswerTexts(env, answers))
    requires Seen(used, QuestionTexts(env, questions)) && Presented(env, questions, answers, resolved)
    ensures used == stored.Keys <==> Matched(env, questions, answers)
  {
    var qs, ts := QuestionTexts(env, questions), AnswerTexts(env, answers);
    forall i | 0 <= i < |questions| ensures SomeFits(env, questions[i], answers) {
      assert PresentedAt(env, questions[i], answers, resolved[i]);
    }
    if used == stored.Keys {
      DistinctSameMultiset(qs, ts);
    } else if Matched(env, questions, answers) {
      SameMultisetSameElements(qs, ts);
      assert false;
    }
  }

  // ---- coverage ----

  ghost predicate Covered(env: Env, q: Question, answers: seq<StoredAnswer>) {
    exists j :: 0 <= j < |answers| && CoveredBy(env, q, answers[j])
  }

  ghost predicate CoveredBy(env: Env, q: Question, a: StoredAnswer) {
    Norm(env, a.question) == Norm(env, q.text) && FingerprintFits(env, q, a)
  }

  ghost function Missing(env: Env, questions: seq<Question>, answers: seq<StoredAnswer>): seq<Question> {
    if questions == [] then []
    else
      var last := questions[|questions| - 1];
      Missing(env, questions[..|questions| - 1], answers) + if Covered(env, last, answers) then [] else [last]
  }

  // A question whose stored fingerprint cannot be compared.
  ghost predicate Incomparable(env: Env, q: Question, answers: seq<StoredAnswer>) {
    !ValidQuestion(env, q) &&
    exists j :: 0 <= j < |answers| && Norm(env, answers[j].question) == Norm(env, q.text) &&
      answers[j].fingerprint != ""
  }

  lemma LookupCovers(env: Env, stored: map<string, StoredAnswer>, answers: seq<StoredAnswer>, q: Question)
    requires Holds(env, stored, answers)
    ensures Covered(env, q, answers) <==> Norm(env, q.text) in stored && CoveredBy(env, q, stored[Norm(env, q.text)])
    ensures Incomparable(env, q, answers) <==>
      !ValidQuestion(env, q) && Norm(env, q.text) in stored && stored[Norm(env, q.text)].fingerprint != ""
  {
    var key := Norm(env, q.text);
    if j :| 0 <= j < |answers| && Norm(env, answers[j].question) == key {
      StoredText(env, stored, answers, j);
    }
    if key in stored {
      var j := StoredAt(env, stored, answers, key);
    }
  }

  method UncoveredQuestions(env: Env, questions: seq<Question>, block: AnswerBlock) returns (r: Option<seq<Question>>)
    ensures r.Some? <==>
      (ValidBlock(env, block) && Distinct(AnswerTexts(env, block.answers)) &&
       Comparable(env, questions, block.answers))
    ensures r.Some? ==> r.value == Missing(env, questions, block.answers)
  {
    var valid := ValidateAnswerBlock(env, block);
    if !valid {
      return None;
    }
    var stored := IndexAnswers(env, block.answers);
    if stored.None? {
      return None;
    }
    r := CollectMissing(env, questions, stored.value, block.answers);
  }

  ghost predicate Comparable(env: Env, questions: seq<Question>, answers: seq<StoredAnswer>) {
    forall i :: 0 <= i < |questions| ==> !Incomparable(env, questions[i], answers)
  }

  lemma NextQuestion(env: Env, questions: seq<Question>, answers: seq<StoredAnswer>, i: nat)
    requires i < |questions| && Comparable(env, questions[..i], answers)
    ensures Comparable(env, questions[..i + 1], answers) <==> !Incomparable(env, questions[i], answers)
    ensures Incomparable(env, questions[i], answers) ==> !Comparable(env, questions, answers)
    ensures Missing(env, questions[..i + 1], answers) ==
            Missing(env, questions[..i], answers) + if Covered(env, questions[i], answers) then [] else [questions[i]]
  {
    var before, after := questions[..i], questions[..i + 1];
    assert after[..i] == before && after[i] == questions[i];
    forall k | 0 <= k < i ensures !Incomparable(env, after[k], answers) {
      assert before[k] == after[k];
    }
  }

  // Whether one question is uncovered, if that can be told.
  method Uncovered(env: Env, q: Question, stored: map<string, StoredAnswer>, ghost answers: seq<StoredAnswer>)
    returns (r: Option<bool>)
    requires Holds(env, stored, answers)
    ensures r.None? <==> Incomparable(env, q, answers)
    ensures r.Some? ==> r.value == !Covered(env, q, answers)
  {
    LookupCovers(env, stored, answers, q);
    var key := Norm(env, q.text);
    if key !in stored {
      return Some(true);
    }
    if stored[key].fingerprint == "" {
      return Some(false);
    }
    var fingerprint := QuestionFingerprint(env, q);
    r := if fingerprint.None? then None else Some(fingerprint.value != stored[key].fingerprint);
  }

  method CollectMissing(env: Env, questions: seq<Question>, stored: map<string, StoredAnswer>,
      ghost answers: seq<StoredAnswer>)
    returns (r: Option<seq<Question>>)
    requires Holds(env, stored, answers)
    ensures r.Some? <==> Comparable(env, questions, answers)
    ensures r.Some? ==> r.value == Missing(env, questions, answers)
  {
    var missing: seq<Question> := [];
    for i := 0 to |questions|
      invariant missing == Missing(env, questions[..i], answers)
      invariant Comparable(env, questions[..i], answers)
    {
      NextQuestion(env, questions, answers, i);
      var uncovered := Uncovered(env, questions[i], stored, answers);
      if uncovered.None? {
        return None;
      }
      if uncovered.value {
        missing := missing + [questions[i]];
      }
    }
    assert questions[..|questions|] == questions;
    r := Some(missing);
  }

  // Resolving a covered questionnaire without asking for a one-to-one match.
  method ResolveBlockAnswers(env: Env, questions: seq<Question>, block: AnswerBlock)
      returns (r: Option<seq<ResolvedAnswer>>)
    ensures r.Some? <==>
      (ValidBlock(env, block) && Distinct(AnswerTexts(env, block.answers)) &&
       Comparable(env, questions, block.answers) &&
       forall i :: 0 <= i < |questions| ==> SomeFits(env, questions[i], block.answers))
    ensures r.Some? ==> Presented(env, questions, block.answers, r.value)
  {
    var missing := UncoveredQuestions(env, questions, block);
    if missing.None? {
      return None;
    }
    MissingExactly(env, questions, block.answers);
    if missing.value != [] {
      ghost var i :| 0 <= i < |questions| && !Covered(env, questions[i], block.answers);
      UncoveredUnfit(env, questions[i], block.answers);
      return None;
    }
    var stored := IndexAnswers(env, block.answers);
    r := ResolveCovered(env, questions, stored.value, block.answers);
  }

  method ResolveCovered(env: Env, questions: seq<Question>, stored: map<string, StoredAnswer>,
      ghost answers: seq<StoredAnswer>)
    returns (r: Option<seq<ResolvedAnswer>>)
    requires Holds(env, stored, answers) && forall i :: 0 <= i < |questions| ==> Covered(env, questions[i], answers)
    ensures r.Some? <==> forall i :: 0 <= i < |questions| ==> SomeFits(env, questions[i], answers)
    ensures r.Some? ==> Presented(env, questions, answers, r.value)
  {
    var resolved: seq<ResolvedAnswer> := [];
    for i := 0 to |questions|
      invariant |resolved| == i
      invariant forall k :: 0 <= k < i ==> PresentedAt(env, questions[k], answers, resolved[k])
      invariant forall k :: 0 <= k < i ==> SomeFits(env, questions[k], answers)
    {
      LookupCovers(env, stored, answers, questions[i]);
      LookupPresents(env, stored, answers, questions[i]);
      var next := ResolveStoredAnswer(env, questions[i], stored[Norm(env, questions[i].text)]);
      if next.None? {
        return None;
      }
      resolved := resolved + [next.value];
    }
    r := Some(resolved);
  }

  lemma LookupPresents(env: Env, stored: map<string, StoredAnswer>, answers: seq<StoredAnswer>, q: Question)
    requires Holds(env, stored, answers) && Norm(env, q.text) in stored
    requires CoveredBy(env, q, stored[Norm(env, q.text)])
    ensures var a := stored[Norm(env, q.text)];
      (SomeFits(env, q, answers) <==> Resolve(env, q, a).Some?) &&
      (Resolve(env, q, a).Some? ==> PresentedAt(env, q, answers, Resolve(env, q, a).value))
  {
    LookupFits(env, stored, answers, q);
    var j := StoredAt(env, stored, answers, Norm(env, q.text));
  }

  lemma FitsCovers(env: Env, q: Question, answers: seq<StoredAnswer>)
    requires SomeFits(env, q, answers)
    ensures Covered(env, q, answers)
  {
    var j :| 0 <= j < |answers| && Fits(env, q, answers[j]);
    assert CoveredBy(env, q, answers[j]);
  }

  lemma UncoveredUnfit(env: Env, q: Question, answers: seq<StoredAnswer>)
    requires !Covered(env, q, answers)
    ensures !SomeFits(env, q, answers)
  {
    if SomeFits(env, q, answers) {
      FitsCovers(env, q, answers);
    }
  }

  lemma {:induction false} MissingExactly(env: Env, questions: seq<Question>, answers: seq<StoredAnswer>)
    ensures Missing(env, questions, answers) == [] <==> forall i :: 0 <= i < |questions| ==>
      Covered(env, questions[i], answers)
  {
    if questions != [] {
      var init, last := questions[..|questions| - 1], questions[|questions| - 1];
      MissingExactly(env, init, answers);
      assert forall i :: 0 <= i < |init| ==> init[i] == questions[i];
      assert Covered(env, last, answers) <==> Covered(env, questions[|questions| - 1], answers);
    }
  }

  // The list of what is missing: each uncovered question, at the place its order gives it,
  // and no other.
  lemma {:induction false} MissingAt(env: Env, questions: seq<Question>, answers: seq<StoredAnswer>, i: nat)
    requires i < |questions|
    ensures Missing(env, questions[..i], answers) <= Missing(env, questions, answers)
    ensures !Covered(env, questions[i], answers) ==>
      |Missing(env, questions[..i], answers)| < |Missing(env, questions, answers)| &&
      Missing(env, questions, answers)[|Missing(env, questions[..i], answers)|] == questions[i]
    ensures forall q :: q in Missing(env, questions, answers) ==> q in questions && !Covered(env, q, answers)
  {
    var init := questions[..|questions| - 1];
    if i < |init| {
      MissingAt(env, init, answers, i);
      assert init[..i] == questions[..i];
    } else if |init| > 0 {
      MissingAt(env, init, answers, 0);
    }
  }

  // Two fitting answers with distinct texts are the same, so what is presented for a
  // question is unique.
  lemma PresentedOnce(env: Env, questions: seq<Question>, answers: seq<StoredAnswer>, a: seq<ResolvedAnswer>,
      b: seq<ResolvedAnswer>)
    requires Distinct(AnswerTexts(env, answers)) && Presented(env, questions, answers, a) &&
      Presented(env, questions, answers, b)
    ensures a == b
  {
    forall i | 0 <= i < |questions| ensures a[i] == b[i] {
      assert PresentedAt(env, questions[i], answers, a[i]) && PresentedAt(env, questions[i], answers, b[i]);
      OneAnswer(env, questions[i], answers, a[i], b[i]);
    }
  }

  lemma OneAnswer(env: Env, q: Question, answers: seq<StoredAnswer>, a: ResolvedAnswer, b: ResolvedAnswer)
    requires Distinct(AnswerTexts(env, answers)) && PresentedAt(env, q, answers, a) && PresentedAt(env, q, answers, b)
    ensures a == b
  {
    var texts := AnswerTexts(env, answers);
    var j :| 0 <= j < |answers| && Fits(env, q, answers[j]) && a == Resolve(env, q, answers[j]).value;
    var k :| 0 <= k < |answers| && Fits(env, q, answers[k]) && b == Resolve(env, q, answers[k]).value;
    assert texts[j] == texts[k];
  }

  // Main result: whenever the strict resolution succeeds, nothing is uncovered, and the
  // lenient one succeeds too; by PresentedOnce it gives the same answers.
  lemma StrictImpliesLenient(env: Env, questions: seq<Question>, block: AnswerBlock)
    requires ValidQuestionnaire(env, questions) && ValidBlock(env, block) && Matched(env, questions, block.answers)
    ensures Distinct(AnswerTexts(env, block.answers)) && Missing(env, questions, block.answers) == []
    ensures Comparable(env, questions, block.answers)
    ensures forall i :: 0 <= i < |questions| ==> SomeFits(env, questions[i], block.answers)
  {
    DistinctPermutation(QuestionTexts(env, questions), AnswerTexts(env, block.answers));
    forall i | 0 <= i < |questions| ensures Covered(env, questions[i], block.answers) {
      FitsCovers(env, questions[i], block.answers);
    }
    MissingExactly(env, questions, block.answers);
    forall i | 0 <= i < |questions| ensures !Incomparable(env, questions[i], block.answers) {
      assert ValidQuestion(env, questions[i]);
    }
  }
}
