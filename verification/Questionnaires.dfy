// Questionnaires of core/questionnaire.go: fingerprints that ignore presentation
// order, and strict resolution of stored answers.
module Questionnaires {
  import opened Wrappers
  import opened Ordering
  import opened Sorting
  import opened Uniqueness
  import opened Text

  datatype QuestionOption = QuestionOption(id: string, text: string)

  datatype Question = Question(id: string, text: string, kind: string, options: seq<QuestionOption>)

  const SINGLE := "single"
  const MULTIPLE := "multiple"
  const TEXT := "text"
  const CODE := "code"

  // provenance says whether the answer's provenance, if any, is valid.
  datatype StoredAnswer = StoredAnswer(
    question: string, fingerprint: string, selected: seq<string>, text: string, provenance: bool)

  // qualification says whether a descriptor is present and, if so, valid.
  datatype AnswerBlock = AnswerBlock(
    tag: string, name: string, kind: string, platform: string, qualification: Option<bool>,
    topic: string, fingerprint: string, answers: seq<StoredAnswer>)

  datatype ResolvedAnswer = ResolvedAnswer(questionId: string, selectedIds: seq<string>, text: string)

  datatype AnswerPlan = AnswerPlan(tag: string, name: string, fingerprint: string, answers: seq<ResolvedAnswer>)

  // How texts are normalised, and the hexadecimal SHA-256 of a text. What follows
  // holds of any normaliser; NormalizeQuestionText is the one in use.
  datatype Env = Env(norm: string -> string, hash: string -> string)

  // ---- normalisation ----

  function Lowered(lower: char -> char, s: string): string {
    seq(|s|, i requires 0 <= i < |s| => lower(s[i]))
  }

  // Case and whitespace do not matter; lower maps one code point.
  function NormalizeQuestionText(lower: char -> char, s: string): string {
    Spaced(Words(Lowered(lower, Trim(s))))
  }

  // Texts are the same question or option when, in lower case, they are the same words.
  lemma NormalExactly(lower: char -> char, s: string, t: string)
    ensures NormalizeQuestionText(lower, s) == NormalizeQuestionText(lower, t) <==>
      Words(Lowered(lower, Trim(s))) == Words(Lowered(lower, Trim(t)))
  {
    CollapsedExactly(Lowered(lower, Trim(s)), Lowered(lower, Trim(t)));
  }

  function Norm(env: Env, s: string): string {
    env.norm(s)
  }

  function OptionTexts(env: Env, options: seq<QuestionOption>): (texts: seq<string>)
    ensures |texts| == |options| && forall i :: 0 <= i < |texts| ==> texts[i] == Norm(env, options[i].text)
  {
    if options == [] then [] else OptionTexts(env, options[..|options| - 1]) + [Norm(env, options[|options| - 1].text)]
  }

  function QuestionTexts(env: Env, questions: seq<Question>): (texts: seq<string>)
    ensures |texts| == |questions| && forall i :: 0 <= i < |texts| ==> texts[i] == Norm(env, questions[i].text)
  {
    if questions == [] then []
    else QuestionTexts(env, questions[..|questions| - 1]) + [Norm(env, questions[|questions| - 1].text)]
  }

  function AnswerTexts(env: Env, answers: seq<StoredAnswer>): (texts: seq<string>)
    ensures |texts| == |answers| && forall i :: 0 <= i < |texts| ==> texts[i] == Norm(env, answers[i].question)
  {
    if answers == [] then []
    else AnswerTexts(env, answers[..|answers| - 1]) + [Norm(env, answers[|answers| - 1].question)]
  }

  function NormAll(env: Env, selected: seq<string>): (texts: seq<string>)
    ensures |texts| == |selected| && forall i :: 0 <= i < |texts| ==> texts[i] == Norm(env, selected[i])
  {
    if selected == [] then [] else NormAll(env, selected[..|selected| - 1]) + [Norm(env, selected[|selected| - 1])]
  }

  // ---- validation ----

  predicate FilledOption(env: Env, option: QuestionOption) {
    option.id != "" && Norm(env, option.text) != ""
  }

  ghost predicate ValidOptions(env: Env, options: seq<QuestionOption>) {
    options != [] && (forall i :: 0 <= i < |options| ==> FilledOption(env, options[i])) &&
    Distinct(OptionTexts(env, options))
  }

  ghost predicate ValidQuestion(env: Env, q: Question) {
    q.id != "" && Norm(env, q.text) != "" &&
    if q.kind == TEXT || q.kind == CODE then q.options == []
    else (q.kind == SINGLE || q.kind == MULTIPLE) && ValidOptions(env, q.options)
  }

  method ValidateOptions(env: Env, options: seq<QuestionOption>) returns (ok: bool)
    ensures ok <==> ValidOptions(env, options)
  {
    if options == [] {
      return false;
    }
    var seen: set<string> := {};
    ghost var keys := OptionTexts(env, options);
    for i := 0 to |options|
      invariant Unrepeated(seen, keys, i)
      invariant forall j :: 0 <= j < i ==> FilledOption(env, options[j])
    {
      if !FilledOption(env, options[i]) {
        return false;
      }
      var key := Norm(env, options[i].text);
      assert key == keys[i];
      UnrepeatedNext(seen, keys, i);
      if key in seen {
        return false;
      }
      seen := seen + {key};
    }
    UnrepeatedAll(seen, keys);
    ok := true;
  }

  method ValidateQuestion(env: Env, q: Question) returns (ok: bool)
    ensures ok <==> ValidQuestion(env, q)
  {
    if q.id == "" || Norm(env, q.text) == "" {
      return false;
    }
    if q.kind == TEXT || q.kind == CODE {
      return q.options == [];
    }
    if q.kind != SINGLE && q.kind != MULTIPLE {
      return false;
    }
    ok := ValidateOptions(env, q.options);
  }

  ghost predicate AllValid(env: Env, questions: seq<Question>) {
    forall i :: 0 <= i < |questions| ==> ValidQuestion(env, questions[i])
  }

  ghost predicate ValidQuestionnaire(env: Env, questions: seq<Question>) {
    questions != [] && AllValid(env, questions) && Distinct(QuestionTexts(env, questions))
  }

  lemma AllValidNext(env: Env, questions: seq<Question>, i: nat)
    requires i < |questions| && AllValid(env, questions[..i])
    ensures AllValid(env, questions[..i + 1]) <==> ValidQuestion(env, questions[i])
    ensures !ValidQuestion(env, questions[i]) ==> !AllValid(env, questions)
  {
    var next := questions[..i + 1];
    assert next[i] == questions[i];
    forall j | 0 <= j < i ensures ValidQuestion(env, next[j]) {
      assert questions[..i][j] == next[j];
    }
  }

  method ValidateQuestionnaire(env: Env, questions: seq<Question>) returns (ok: bool)
    ensures ok <==> ValidQuestionnaire(env, questions)
  {
    if questions == [] {
      return false;
    }
    var seen: set<string> := {};
    ghost var keys := QuestionTexts(env, questions);
    for i := 0 to |questions|
      invariant Unrepeated(seen, keys, i)
      invariant AllValid(env, questions[..i])
    {
      AllValidNext(env, questions, i);
      var valid := ValidateQuestion(env, questions[i]);
      if !valid {
        return false;
      }
      var key := Norm(env, questions[i].text);
      assert key == keys[i];
      UnrepeatedNext(seen, keys, i);
      if key in seen {
        return false;
      }
      seen := seen + {key};
    }
    UnrepeatedAll(seen, keys);
    assert questions[..|questions|] == questions;
    ok := true;
  }

  // A SHA-256 in hexadecimal.
  predicate IsDigest(s: string) {
    |s| == 64 && forall c :: c in s ==> '0' <= c <= '9' || 'a' <= c <= 'f' || 'A' <= c <= 'F'
  }

  predicate ValidHeader(b: AnswerBlock) {
    b.tag != "" && b.name != "" && b.platform != "" && b.answers != [] &&
    (b.fingerprint == "" || IsDigest(b.fingerprint)) &&
    (if b.kind == "qualification" then b.topic == "" && b.fingerprint == "" && b.qualification != Some(false)
     else if b.kind == "conversation" then b.qualification.None? && (b.fingerprint == "" || b.topic == "")
     else b.kind == "vacancy" && b.qualification.None? && b.fingerprint == "" && b.topic == "")
  }

  predicate ValidAnswer(env: Env, a: StoredAnswer) {
    Norm(env, a.question) != "" && (a.fingerprint == "" || IsDigest(a.fingerprint)) &&
    (a.text == "") != (a.selected == []) && a.provenance
  }

  // What an answer is unique by: its fingerprint if it has one, else its text.
  function AnswerKey(env: Env, a: StoredAnswer): string {
    if a.fingerprint != "" then "fingerprint:" + a.fingerprint else "text:" + Norm(env, a.question)
  }

  function AnswerKeys(env: Env, answers: seq<StoredAnswer>): (texts: seq<string>)
    ensures |texts| == |answers| && forall i :: 0 <= i < |texts| ==> texts[i] == AnswerKey(env, answers[i])
  {
    if answers == [] then [] else AnswerKeys(env, answers[..|answers| - 1]) + [AnswerKey(env, answers[|answers| - 1])]
  }

  ghost predicate ValidAnswers(env: Env, answers: seq<StoredAnswer>) {
    (forall i :: 0 <= i < |answers| ==> ValidAnswer(env, answers[i])) && Distinct(AnswerKeys(env, answers))
  }

  ghost predicate ValidBlock(env: Env, b: AnswerBlock) {
    ValidHeader(b) && ValidAnswers(env, b.answers)
  }

  // Which headers go with which kind of block: a qualification, a conversation by topic or
  // fingerprint, a vacancy.
  lemma HeaderTold(b: AnswerBlock)
    ensures ValidHeader(b) <==>
      b.tag != "" && b.name != "" && b.platform != "" && b.answers != [] &&
      ((b.kind == "qualification" && b.topic == "" && b.fingerprint == "" && b.qualification != Some(false)) ||
       (b.kind == "conversation" && b.qualification.None? &&
        (b.fingerprint == "" || (b.topic == "" && IsDigest(b.fingerprint)))) ||
       (b.kind == "vacancy" && b.qualification.None? && b.topic == "" && b.fingerprint == ""))
  {
  }

  // A stored answer is a text or options, not both and not neither, to some question.
  lemma AnswerTold(env: Env, a: StoredAnswer)
    ensures ValidAnswer(env, a) <==>
      Norm(env, a.question) != "" && (a.fingerprint == "" || IsDigest(a.fingerprint)) && a.provenance &&
      ((a.text != "" && a.selected == []) || (a.text == "" && a.selected != []))
  {
    hide IsDigest;
  }

  // Two answers are to the same question by their fingerprints, or, without any, by their
  // texts.
  lemma KeysTold(env: Env, a: StoredAnswer, b: StoredAnswer)
    ensures AnswerKey(env, a) == AnswerKey(env, b) <==>
      if a.fingerprint != "" || b.fingerprint != "" then a.fingerprint == b.fingerprint
      else Norm(env, a.question) == Norm(env, b.question)
  {
    var f, t := "fingerprint:", "text:";
    assert (f + a.fingerprint)[|f|..] == a.fingerprint && (f + b.fingerprint)[|f|..] == b.fingerprint;
    assert (t + Norm(env, a.question))[|t|..] == Norm(env, a.question);
    assert (t + Norm(env, b.question))[|t|..] == Norm(env, b.question);
    assert forall x, y :: (f + x)[0] != (t + y)[0];
  }

  method ValidateAnswers(env: Env, answers: seq<StoredAnswer>) returns (ok: bool)
    ensures ok <==> ValidAnswers(env, answers)
  {
    var seen: set<string> := {};
    ghost var keys := AnswerKeys(env, answers);
    for i := 0 to |answers|
      invariant Unrepeated(seen, keys, i)
      invariant forall j :: 0 <= j < i ==> ValidAnswer(env, answers[j])
    {
      var key := AnswerKey(env, answers[i]);
      assert key == keys[i];
      UnrepeatedNext(seen, keys, i);
      if key in seen {
        return false;
      }
      if !ValidAnswer(env, answers[i]) {
        return false;
      }
      seen := seen + {key};
    }
    UnrepeatedAll(seen, keys);
    ok := true;
  }

  method ValidateAnswerBlock(env: Env, b: AnswerBlock) returns (ok: bool)
    ensures ok <==> ValidBlock(env, b)
  {
    if !ValidHeader(b) {
      return false;
    }
    ok := ValidateAnswers(env, b.answers);
  }

  // ---- fingerprints ----

  const UNIT_SEPARATOR := '\U{001F}'
  const RECORD_SEPARATOR := '\U{001E}'
  const GROUP_SEPARATOR := '\U{001D}'

  function Joined(parts: seq<string>, separator: char): string {
    if parts == [] then ""
    else if |parts| == 1 then parts[0]
    else parts[0] + [separator] + Joined(parts[1..], separator)
  }

  function Signature(env: Env, q: Question): string {
    var options := SortBy(OptionTexts(env, q.options), Identity);
    q.kind + [RECORD_SEPARATOR] + Norm(env, q.text) + [RECORD_SEPARATOR] + Joined(options, UNIT_SEPARATOR)
  }

  function Fingerprint(env: Env, q: Question): string {
    env.hash(Signature(env, q))
  }

  method QuestionFingerprint(env: Env, q: Question) returns (r: Option<string>)
    ensures r == if ValidQuestion(env, q) then Some(Fingerprint(env, q)) else None
  {
    var valid := ValidateQuestion(env, q);
    if !valid {
      return None;
    }
    var options: seq<string> := [];
    for i := 0 to |q.options|
      invariant options == OptionTexts(env, q.options[..i])
    {
      options := options + [Norm(env, q.options[i].text)];
      assert q.options[..i + 1] == q.options[..i] + [q.options[i]];
    }
    assert q.options[..|q.options|] == q.options;
    var signature := Joined([q.kind, Norm(env, q.text), Joined(SortBy(options, Identity), UNIT_SEPARATOR)],
      RECORD_SEPARATOR);
    ThreeJoined(q.kind, Norm(env, q.text), Joined(SortBy(options, Identity), UNIT_SEPARATOR), RECORD_SEPARATOR);
    r := Some(env.hash(signature));
  }

  lemma ThreeJoined(a: string, b: string, c: string, separator: char)
    ensures Joined([a, b, c], separator) == a + [separator] + b + [separator] + c
  {
    assert [a, b, c][1..] == [b, c] && [b, c][1..] == [c];
    assert Joined([b, c], separator) == b + [separator] + c;
    assert Joined([a, b, c], separator) == a + [separator] + (b + [separator] + c);
  }

  // Questions that differ in presentation only.
  ghost predicate SameContent(env: Env, p: Question, q: Question) {
    p.kind == q.kind && Norm(env, p.text) == Norm(env, q.text) &&
    multiset(OptionTexts(env, p.options)) == multiset(OptionTexts(env, q.options))
  }

  lemma LeastFirst(a: seq<string>, b: seq<string>)
    requires a != [] && Sorted(a, Identity) && Sorted(b, Identity) && SameElements(a, b)
    ensures b != [] && a[0] == b[0]
  {
    assert a[0] in b && b[0] in a;
    var i :| 0 <= i < |a| && a[i] == b[0];
    var j :| 0 <= j < |b| && b[j] == a[0];
    assert i > 0 ==> AtMost(Identity(a[0]), Identity(a[i]));
    assert j > 0 ==> AtMost(Identity(b[0]), Identity(b[j]));
    if a[0] != b[0] {
      LessAsymmetric(a[0], b[0]);
    }
  }

  lemma TailMultiset(a: seq<string>)
    requires a != []
    ensures multiset(a[1..]) == multiset(a) - multiset{a[0]} && a == [a[0]] + a[1..]
  {
    assert a == [a[0]] + a[1..];
  }

  lemma {:induction false} SortedSame(a: seq<string>, b: seq<string>)
    requires Sorted(a, Identity) && Sorted(b, Identity) && multiset(a) == multiset(b)
    ensures a == b
  {
    SameMultisetSameElements(a, b);
    if a != [] {
      LeastFirst(a, b);
      TailMultiset(a);
      TailMultiset(b);
      SortedSame(a[1..], b[1..]);
    }
  }

  lemma SortPermutation(a: seq<string>, b: seq<string>)
    requires multiset(a) == multiset(b)
    ensures SortBy(a, Identity) == SortBy(b, Identity)
  {
    SortBySorted(a, Identity);
    SortBySorted(b, Identity);
    SortedSame(SortBy(a, Identity), SortBy(b, Identity));
  }

  // Option order and runtime ids do not reach the fingerprint.
  lemma PresentationIgnored(env: Env, p: Question, q: Question)
    requires SameContent(env, p, q)
    ensures Fingerprint(env, p) == Fingerprint(env, q)
  {
    SortPermutation(OptionTexts(env, p.options), OptionTexts(env, q.options));
  }

  ghost predicate Free(s: string, separator: char) {
    forall i :: 0 <= i < |s| ==> s[i] != separator
  }

  ghost predicate AllFree(parts: seq<string>, separator: char) {
    forall i :: 0 <= i < |parts| ==> Free(parts[i], separator)
  }

  lemma HeadsAgree(a: string, restA: string, b: string, restB: string, separator: char)
    requires Free(a, separator) && Free(b, separator)
    requires a + [separator] + restA == b + [separator] + restB
    ensures a == b && restA == restB
  {
    var x, y := a + [separator] + restA, b + [separator] + restB;
    assert x[|a|] == separator && y[|b|] == separator;
    assert a == x[..|a|] && b == y[..|b|];
    assert restA == x[|a| + 1..] && restB == y[|b| + 1..];
  }

  lemma JoinedHasSeparator(parts: seq<string>, separator: char)
    requires |parts| > 1
    ensures !Free(Joined(parts, separator), separator)
  {
    assert Joined(parts, separator)[|parts[0]|] == separator;
  }

  lemma {:induction false} JoinInjective(a: seq<string>, b: seq<string>, separator: char)
    requires a != [] && b != [] && AllFree(a, separator) && AllFree(b, separator)
    requires Joined(a, separator) == Joined(b, separator)
    ensures a == b
  {
    if |a| == 1 || |b| == 1 {
      if |a| > 1 {
        JoinedHasSeparator(a, separator);
        assert false;
      }
      if |b| > 1 {
        JoinedHasSeparator(b, separator);
        assert false;
      }
    } else {
      HeadsAgree(a[0], Joined(a[1..], separator), b[0], Joined(b[1..], separator), separator);
      JoinInjective(a[1..], b[1..], separator);
      assert a == [a[0]] + a[1..] && b == [b[0]] + b[1..];
    }
  }

  // Texts the signature's separators do not occur in.
  ghost predicate SeparatorFree(env: Env, q: Question) {
    Free(Norm(env, q.text), RECORD_SEPARATOR) &&
    AllFree(OptionTexts(env, q.options), RECORD_SEPARATOR) && AllFree(OptionTexts(env, q.options), UNIT_SEPARATOR)
  }

  ghost predicate NoCollision(env: Env, a: string, b: string) {
    env.hash(a) == env.hash(b) ==> a == b
  }

  lemma KindFree(env: Env, q: Question)
    requires ValidQuestion(env, q)
    ensures Free(q.kind, RECORD_SEPARATOR)
  {
  }

  lemma SortKeepsFree(parts: seq<string>, separator: char)
    ensures AllFree(parts, separator) <==> AllFree(SortBy(parts, Identity), separator)
  {
    var sorted := SortBy(parts, Identity);
    SameMultisetSameElements(parts, sorted);
    if AllFree(parts, separator) {
      forall i | 0 <= i < |sorted| ensures Free(sorted[i], separator) {
        assert sorted[i] in parts;
      }
    }
    if AllFree(sorted, separator) {
      forall i | 0 <= i < |parts| ensures Free(parts[i], separator) {
        assert parts[i] in sorted;
      }
    }
  }

  lemma {:induction false} JoinedFree(parts: seq<string>, separator: char, other: char)
    requires separator != other && AllFree(parts, other)
    ensures Free(Joined(parts, separator), other)
  {
    if |parts| > 1 {
      JoinedFree(parts[1..], separator, other);
    }
  }

  // Against a separator-free question, an equal signature agrees part by part.
  lemma SignatureParts(env: Env, p: Question, q: Question)
    requires ValidQuestion(env, p) && ValidQuestion(env, q) && SeparatorFree(env, p)
    requires Signature(env, p) == Signature(env, q)
    ensures p.kind == q.kind && Norm(env, p.text) == Norm(env, q.text)
    ensures Joined(SortBy(OptionTexts(env, p.options), Identity), UNIT_SEPARATOR) ==
            Joined(SortBy(OptionTexts(env, q.options), Identity), UNIT_SEPARATOR)
  {
    var r := RECORD_SEPARATOR;
    var tp, tq := Norm(env, p.text), Norm(env, q.text);
    var op := Joined(SortBy(OptionTexts(env, p.options), Identity), UNIT_SEPARATOR);
    var oq := Joined(SortBy(OptionTexts(env, q.options), Identity), UNIT_SEPARATOR);
    KindFree(env, p);
    KindFree(env, q);
    Regrouped(p.kind, tp, op, r);
    Regrouped(q.kind, tq, oq, r);
    HeadsAgree(p.kind, tp + [r] + op, q.kind, tq + [r] + oq, r);
    SortKeepsFree(OptionTexts(env, p.options), r);
    JoinedFree(SortBy(OptionTexts(env, p.options), Identity), UNIT_SEPARATOR, r);
    OneSeparator(tp, op, tq, oq, r);
  }

  // A text with one separator splits one way.
  lemma OneSeparator(a: string, restA: string, b: string, restB: string, separator: char)
    requires Free(a, separator) && Free(restA, separator)
    requires a + [separator] + restA == b + [separator] + restB
    ensures a == b && restA == restB
  {
    var x, y := a + [separator] + restA, b + [separator] + restB;
    assert forall i :: 0 <= i < |x| && x[i] == separator ==> i == |a|;
    assert y[|b|] == separator;
    assert forall i :: 0 <= i < |b| ==> y[i] == b[i];
    HeadsAgree(a, restA, b, restB, separator);
  }

  lemma Regrouped(a: string, b: string, c: string, separator: char)
    ensures a + [separator] + b + [separator] + c == a + [separator] + (b + [separator] + c)
  {
  }

  // Main result on fingerprints: of two valid questions with equal fingerprints, one of
  // them separator-free, the other has the same kind, text and options exactly when no
  // option of it contains the unit separator.
  lemma FingerprintDecides(env: Env, p: Question, q: Question)
    requires ValidQuestion(env, p) && ValidQuestion(env, q) && SeparatorFree(env, p)
    requires Fingerprint(env, p) == Fingerprint(env, q) && NoCollision(env, Signature(env, p), Signature(env, q))
    ensures SameContent(env, p, q) <==> AllFree(OptionTexts(env, q.options), UNIT_SEPARATOR)
  {
    hide Joined, SortBy, Free;
    SignatureParts(env, p, q);
    var op, oq := OptionTexts(env, p.options), OptionTexts(env, q.options);
    SortKeepsFree(op, UNIT_SEPARATOR);
    SortKeepsFree(oq, UNIT_SEPARATOR);
    if SameContent(env, p, q) {
      SameMultisetSameElements(op, oq);
      forall i | 0 <= i < |oq| ensures Free(oq[i], UNIT_SEPARATOR) {
        assert oq[i] in op;
      }
    } else if AllFree(oq, UNIT_SEPARATOR) && p.options != [] {
      assert |multiset(SortBy(op, Identity))| == |op| && |multiset(SortBy(oq, Identity))| == |oq|;
      JoinInjective(SortBy(op, Identity), SortBy(oq, Identity), UNIT_SEPARATOR);
    }
  }

  function Fingerprints(env: Env, questions: seq<Question>): (texts: seq<string>)
    ensures |texts| == |questions| && forall i :: 0 <= i < |texts| ==> texts[i] == Fingerprint(env, questions[i])
  {
    if questions == [] then []
    else Fingerprints(env, questions[..|questions| - 1]) + [Fingerprint(env, questions[|questions| - 1])]
  }

  lemma FingerprintsNext(env: Env, questions: seq<Question>, i: nat)
    requires i < |questions|
    ensures Fingerprints(env, questions[..i + 1]) ==
      Fingerprints(env, questions[..i]) + [Fingerprint(env, questions[i])]
  {
  }

  function AttemptSignature(env: Env, questions: seq<Question>): string {
    Joined(SortBy(Fingerprints(env, questions), Identity), GROUP_SEPARATOR)
  }

  method ObservedAttemptFingerprint(env: Env, questions: seq<Question>) returns (r: Option<string>)
    ensures r == if ValidQuestionnaire(env, questions) then Some(env.hash(AttemptSignature(env, questions))) else None
  {
    var valid := ValidateQuestionnaire(env, questions);
    if !valid {
      return None;
    }
    var signatures: seq<string> := [];
    for i := 0 to |questions|
      invariant signatures == Fingerprints(env, questions[..i])
    {
      var fingerprint := QuestionFingerprint(env, questions[i]);
      assert ValidQuestion(env, questions[i]);
      FingerprintsNext(env, questions, i);
      signatures := signatures + [fingerprint.value];
    }
    assert questions[..|questions|] == questions;
    r := Some(env.hash(Joined(SortBy(signatures, Identity), GROUP_SEPARATOR)));
  }

  // Main result on attempts: digests contain no separator, so two attempts have the
  // same fingerprint exactly when they hold the same questions in some order.
  lemma AttemptIgnoresOrder(env: Env, a: seq<Question>, b: seq<Question>)
    requires a != [] && b != []
    requires AllFree(Fingerprints(env, a), GROUP_SEPARATOR) && AllFree(Fingerprints(env, b), GROUP_SEPARATOR)
    requires NoCollision(env, AttemptSignature(env, a), AttemptSignature(env, b))
    ensures env.hash(AttemptSignature(env, a)) == env.hash(AttemptSignature(env, b)) <==>
      multiset(Fingerprints(env, a)) == multiset(Fingerprints(env, b))
  {
    var fa, fb := Fingerprints(env, a), Fingerprints(env, b);
    if multiset(fa) == multiset(fb) {
      SortPermutation(fa, fb);
    } else if AttemptSignature(env, a) == AttemptSignature(env, b) {
      SortKeepsFree(fa, GROUP_SEPARATOR);
      SortKeepsFree(fb, GROUP_SEPARATOR);
      assert |multiset(SortBy(fa, Identity))| == |fa| && |multiset(SortBy(fb, Identity))| == |fb|;
      JoinInjective(SortBy(fa, Identity), SortBy(fb, Identity), GROUP_SEPARATOR);
    }
  }
}
