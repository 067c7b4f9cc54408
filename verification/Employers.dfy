// Employer groups of operator/employer.go: compiling them, rejecting include cycles
// with a three-colour depth-first search, and matching vacancies with a cache.
module Employers {
  import opened Wrappers
  import opened Sorting
  import opened Text

  datatype RuleConfig = RuleConfig(platform: string, employerId: string, name: string)

  datatype GroupConfig = GroupConfig(tag: string, rules: seq<RuleConfig>, includes: seq<string>)

  datatype Rule = Rule(platform: string, employerId: string, name: string)

  datatype Group = Group(tag: string, rules: seq<Rule>, includes: seq<string>)

  // employerId is the text form of the vacancy's employer id attribute.
  datatype Vacancy = Vacancy(platform: string, employerId: string, employer: string)

  datatype Kind = ByEmployerId | ByName | ByInclude

  datatype Evidence = Evidence(groupTag: string, kind: Kind, platform: string, value: string, via: string)

  datatype GroupMatch = GroupMatch(groupTag: string, evidence: Evidence)

  type Groups = map<string, Group>

  // ---- the include graph ----

  ghost predicate Edge(groups: Groups, a: string, b: string) {
    a in groups && b in groups[a].includes
  }

  ghost predicate IsPath(groups: Groups, p: seq<string>) {
    p != [] && forall i :: 0 <= i < |p| - 1 ==> Edge(groups, p[i], p[i + 1])
  }

  ghost predicate Cycle(groups: Groups, p: seq<string>) {
    IsPath(groups, p) && |p| >= 2 && p[0] == p[|p| - 1]
  }

  ghost predicate Acyclic(groups: Groups) {
    forall p :: !Cycle(groups, p)
  }

  ghost predicate Reaches(groups: Groups, a: string, b: string) {
    exists p :: IsPath(groups, p) && p[0] == a && p[|p| - 1] == b
  }

  ghost predicate Closed(groups: Groups) {
    forall t, u :: t in groups && u in groups[t].includes ==> u in groups
  }

  // Every group comes after the groups it includes.
  ghost predicate Ranked(groups: Groups, order: seq<string>) {
    forall i :: 0 <= i < |order| ==> order[i] in groups && Below(groups[order[i]].includes, order[..i])
  }

  ghost predicate Below(includes: seq<string>, earlier: seq<string>) {
    forall u :: u in includes ==> u in earlier
  }

  ghost function Position(order: seq<string>, t: string): (i: nat)
    requires t in order
    ensures i < |order| && order[i] == t && t !in order[..i]
  {
    if order[0] == t then 0
    else
      assert t in order[1..];
      var i := Position(order[1..], t) + 1;
      assert order[..i] == [order[0]] + order[1..][..i - 1];
      i
  }

  lemma PositionIn(order: seq<string>, i: nat, t: string)
    requires i <= |order| && t in order[..i]
    ensures t in order && Position(order, t) < i
  {
    var k :| 0 <= k < i && order[k] == t;
    var before := order[..Position(order, t)];
    forall m | 0 <= m < |before| ensures order[m] != t {
      assert before[m] in before;
    }
  }

  lemma EdgeDescends(groups: Groups, order: seq<string>, a: string, b: string)
    requires Ranked(groups, order) && a in order && Edge(groups, a, b)
    ensures b in order && Position(order, b) < Position(order, a)
  {
    var i := Position(order, a);
    assert Below(groups[order[i]].includes, order[..i]);
    PositionIn(order, i, b);
  }

  lemma {:induction false} PathDescends(groups: Groups, order: seq<string>, p: seq<string>)
    requires Ranked(groups, order) && IsPath(groups, p) && p[0] in order
    ensures p[|p| - 1] in order && Position(order, p[|p| - 1]) + |p| - 1 <= Position(order, p[0])
  {
    if |p| > 1 {
      var init := p[..|p| - 1];
      forall i | 0 <= i < |init| - 1 ensures Edge(groups, init[i], init[i + 1]) {
        assert Edge(groups, p[i], p[i + 1]);
      }
      PathDescends(groups, order, init);
      assert Edge(groups, p[|p| - 2], p[|p| - 2 + 1]);
      EdgeDescends(groups, order, p[|p| - 2], p[|p| - 1]);
    }
  }

  // An order of all groups rules cycles out.
  lemma RankedIsAcyclic(groups: Groups, order: seq<string>)
    requires Ranked(groups, order) && forall t :: t in groups ==> t in order
    ensures Acyclic(groups)
  {
    forall p ensures !Cycle(groups, p) {
      if Cycle(groups, p) {
        assert Edge(groups, p[0], p[0 + 1]);
        PathDescends(groups, order, p);
      }
    }
  }

  lemma RankedExtend(groups: Groups, order: seq<string>, t: string)
    requires Ranked(groups, order) && t in groups && Below(groups[t].includes, order)
    ensures Ranked(groups, order + [t])
  {
    var longer := order + [t];
    forall i | 0 <= i < |longer| ensures longer[i] in groups && Below(groups[longer[i]].includes, longer[..i]) {
      if i < |order| {
        assert longer[..i] == order[..i];
      } else {
        assert longer[..i] == order;
      }
    }
  }

  lemma PathSuffix(groups: Groups, p: seq<string>, i: nat)
    requires IsPath(groups, p) && i < |p|
    ensures IsPath(groups, p[i..])
  {
    var q := p[i..];
    forall k | 0 <= k < |q| - 1 ensures Edge(groups, q[k], q[k + 1]) {
      assert Edge(groups, p[i + k], p[i + k + 1]);
    }
  }

  lemma PathExtend(groups: Groups, p: seq<string>, t: string)
    requires IsPath(groups, p) && Edge(groups, p[|p| - 1], t)
    ensures IsPath(groups, p + [t])
  {
    var q := p + [t];
    forall k | 0 <= k < |q| - 1 ensures Edge(groups, q[k], q[k + 1]) {
      if k < |p| - 1 {
        assert Edge(groups, p[k], p[k + 1]);
      }
    }
  }

  // ---- the depth-first search ----

  datatype Mark = Visiting | Finished

  class IncludeWalk {
    const groups: Groups
    // A group without a mark is unseen.
    var state: map<string, Mark>
    var stack: seq<string>
    ghost var finished: seq<string>

    constructor (groups: Groups)
      requires Closed(groups)
      ensures Valid() && this.groups == groups && stack == []
    {
      this.groups := groups;
      state := map[];
      stack := [];
      finished := [];
    }

    // The stack is a path of the groups being visited; finished groups stand in an
    // order in which each follows what it includes.
    ghost predicate Valid()
      reads this
    {
      Closed(groups) && state.Keys <= groups.Keys &&
      (forall t :: t in stack <==> t in state && state[t] == Visiting) &&
      (forall t :: t in finished <==> t in state && state[t] == Finished) &&
      (forall i, j :: 0 <= i < j < |stack| ==> stack[i] != stack[j]) &&
      (stack != [] ==> IsPath(groups, stack)) && Ranked(groups, finished)
    }

    // The error is the cycle found.
    method Visit(tag: string) returns (cycle: Option<seq<string>>)
      requires Valid() && tag in groups && (stack == [] || Edge(groups, stack[|stack| - 1], tag))
      modifies this
      ensures cycle.Some? ==> Cycle(groups, cycle.value)
      ensures cycle.None? ==> Valid() && stack == old(stack) && tag in finished
      ensures cycle.None? ==> old(finished) <= finished && old(state).Keys <= state.Keys
      decreases groups.Keys - state.Keys
    {
      hide IsPath, Ranked, Cycle;
      if tag in state && state[tag] == Visiting {
        var closing := CloseCycle(tag);
        return Some(closing);
      }
      if tag in state && state[tag] == Finished {
        return None;
      }
      Push(tag);
      ghost var entered := stack;
      for i := 0 to |groups[tag].includes|
        invariant Valid() && stack == entered && old(finished) <= finished
        invariant old(state).Keys + {tag} <= state.Keys
        invariant Below(groups[tag].includes[..i], finished)
      {
        ghost var before := finished;
        var included := groups[tag].includes[i];
        cycle := Visit(included);
        if cycle.Some? {
          return;
        }
        assert groups[tag].includes[..i + 1] == groups[tag].includes[..i] + [included];
      }
      assert groups[tag].includes[..|groups[tag].includes|] == groups[tag].includes;
      Pop(tag);
      cycle := None;
    }

    method CloseCycle(tag: string) returns (cycle: seq<string>)
      requires Valid() && tag in stack && Edge(groups, stack[|stack| - 1], tag)
      ensures Cycle(groups, cycle)
    {
      var start := 0;
      while stack[start] != tag
        invariant start < |stack| && tag in stack[start..]
        decreases |stack| - start
      {
        assert stack[start..] == [stack[start]] + stack[start + 1..];
        start := start + 1;
      }
      PathSuffix(groups, stack, start);
      PathExtend(groups, stack[start..], tag);
      cycle := stack[start..] + [tag];
    }

    method Push(tag: string)
      requires Valid() && tag in groups && tag !in state && (stack == [] || Edge(groups, stack[|stack| - 1], tag))
      modifies this
      ensures Valid() && stack == old(stack) + [tag] && finished == old(finished)
      ensures state == old(state)[tag := Visiting]
    {
      if stack != [] {
        PathExtend(groups, stack, tag);
      }
      forall i | 0 <= i < |stack| ensures stack[i] != tag {
        assert stack[i] in stack;
      }
      state := state[tag := Visiting];
      stack := stack + [tag];
    }

    method Pop(tag: string)
      requires Valid() && stack != [] && stack[|stack| - 1] == tag && tag in groups
      requires Below(groups[tag].includes, finished)
      modifies this
      ensures Valid() && stack == old(stack)[..|old(stack)| - 1] && finished == old(finished) + [tag]
      ensures state.Keys == old(state).Keys
    {
      assert tag in stack;
      LastRemoved(stack);
      if |stack| > 1 {
        PathPrefix(groups, stack);
      }
      RankedExtend(groups, finished, tag);
      stack := stack[..|stack| - 1];
      state := state[tag := Finished];
      finished := finished + [tag];
    }
  }

  lemma LastRemoved(s: seq<string>)
    requires s != [] && forall i, j :: 0 <= i < j < |s| ==> s[i] != s[j]
    ensures forall t :: t in s[..|s| - 1] <==> t in s && t != s[|s| - 1]
  {
    var rest := s[..|s| - 1];
    assert s == rest + [s[|s| - 1]];
    forall t | t in rest ensures t != s[|s| - 1] {
      var i :| 0 <= i < |rest| && rest[i] == t;
      assert s[i] == t;
    }
  }

  lemma PathPrefix(groups: Groups, p: seq<string>)
    requires IsPath(groups, p) && |p| > 1
    ensures IsPath(groups, p[..|p| - 1])
  {
    var q := p[..|p| - 1];
    forall k | 0 <= k < |q| - 1 ensures Edge(groups, q[k], q[k + 1]) {
      assert Edge(groups, p[k], p[k + 1]);
    }
  }

  // Main result: the search accepts exactly the acyclic include graphs; what it
  // reports otherwise is a cycle. An accepted graph comes with an order of its groups.
  method ValidateAcyclic(groups: Groups, order: seq<string>)
      returns (cycle: Option<seq<string>>, ghost ranks: seq<string>)
    requires Closed(groups) && forall t :: t in order <==> t in groups
    ensures cycle.None? <==> Acyclic(groups)
    ensures cycle.Some? ==> Cycle(groups, cycle.value)
    ensures cycle.None? ==> Ranked(groups, ranks) && forall t :: t in groups ==> t in ranks
  {
    var walk := new IncludeWalk(groups);
    for i := 0 to |order|
      invariant walk.Valid() && walk.groups == groups && walk.stack == [] && fresh(walk)
      invariant Below(order[..i], walk.finished)
    {
      cycle := walk.Visit(order[i]);
      if cycle.Some? {
        return cycle, [];
      }
      assert order[..i + 1] == order[..i] + [order[i]];
    }
    assert order[..|order|] == order;
    ranks := walk.finished;
    RankedIsAcyclic(groups, ranks);
    cycle := None;
  }

  // ---- compiling groups ----

  // normalizeEmployerName: collapsed whitespace, lower case.
  function NormalName(lower: char -> char, value: string): string {
    var spaced := Spaced(Words(value));
    seq(|spaced|, i requires 0 <= i < |spaced| => if IsSpace(spaced[i]) then ' ' else lower(spaced[i]))
  }

  function CompiledRule(lower: char -> char, c: RuleConfig): Rule {
    Rule(Trim(c.platform), Trim(c.employerId), NormalName(lower, c.name))
  }

  predicate ValidRule(lower: char -> char, c: RuleConfig) {
    var rule := CompiledRule(lower, c);
    (rule.employerId == "") != (rule.name == "") && (rule.employerId != "" ==> rule.platform != "")
  }

  function RuleKey(rule: Rule): string {
    rule.platform + "\0" + rule.employerId + "\0" + rule.name
  }

  function CompiledRules(lower: char -> char, rules: seq<RuleConfig>): seq<Rule> {
    seq(|rules|, i requires 0 <= i < |rules| => CompiledRule(lower, rules[i]))
  }

  function Trimmed(values: seq<string>): seq<string> {
    seq(|values|, i requires 0 <= i < |values| => Trim(values[i]))
  }

  ghost predicate ValidRules(lower: char -> char, rules: seq<RuleConfig>) {
    (forall i :: 0 <= i < |rules| ==> ValidRule(lower, rules[i])) && DistinctKeys(CompiledRules(lower, rules), RuleKey)
  }

  ghost predicate ValidIncludes(includes: seq<string>) {
    (forall i :: 0 <= i < |includes| ==> Trim(includes[i]) != "") && DistinctKeys(Trimmed(includes), Identity)
  }

  ghost predicate ValidGroup(lower: char -> char, c: GroupConfig) {
    Trim(c.tag) != "" && ValidRules(lower, c.rules) && ValidIncludes(c.includes) && (c.rules != [] || c.includes != [])
  }

  function Compiled(lower: char -> char, c: GroupConfig): Group {
    Group(Trim(c.tag), CompiledRules(lower, c.rules), Trimmed(c.includes))
  }

  // What a rule names: an employer by identifier on its platform, or by name on its platform
  // or on any.
  lemma RuleTold(lower: char -> char, c: RuleConfig)
    ensures
      var r := CompiledRule(lower, c);
      r.platform == Trim(c.platform) && r.employerId == Trim(c.employerId) &&
      (ValidRule(lower, c) <==>
        (r.name == "" && !Blank(c.employerId) && !Blank(c.platform)) || (r.name != "" && Blank(c.employerId)))
    ensures CompiledRule(lower, c).name == "" <==> Words(c.name) == []
  {
    hide Trim;
    SpacedWords(c.name);
  }

  lemma SpacedWords(value: string)
    ensures Spaced(Words(value)) == "" <==> Words(value) == []
  {
    TrimLeftShape(value);
    var t := TrimLeft(value);
    if t != [] {
      assert RunLength(t) > 0 && Words(value)[0] == t[..RunLength(t)];
    }
  }

  ghost predicate NulFree(s: string) {
    forall i :: 0 <= i < |s| ==> s[i] != '\0'
  }

  // Rules whose texts hold no NUL have one key only if they are the same.
  lemma KeysSeparateRules(a: Rule, b: Rule)
    requires NulFree(a.platform) && NulFree(a.employerId) && NulFree(b.platform) && NulFree(b.employerId)
    ensures RuleKey(a) == RuleKey(b) <==> a == b
  {
    assert RuleKey(a) == a.platform + "\0" + (a.employerId + "\0" + a.name);
    assert RuleKey(b) == b.platform + "\0" + (b.employerId + "\0" + b.name);
    if RuleKey(a) == RuleKey(b) {
      SplitAtNul(a.platform, a.employerId + "\0" + a.name, b.platform, b.employerId + "\0" + b.name);
      SplitAtNul(a.employerId, a.name, b.employerId, b.name);
    }
  }

  lemma SplitAtNul(a: string, restA: string, b: string, restB: string)
    requires NulFree(a) && NulFree(b)
    ensures a + "\0" + restA == b + "\0" + restB ==> a == b && restA == restB
  {
    var x, y := a + "\0" + restA, b + "\0" + restB;
    if x == y {
      assert x[|a|] == '\0' && y[|b|] == '\0';
      assert a == x[..|a|] && b == y[..|b|];
      assert restA == x[|a| + 1..] && restB == y[|b| + 1..];
    }
  }

  // Each configured group is found under its tag, with its rules and includes in order.
  lemma {:induction false} GroupTold(lower: char -> char, configs: seq<GroupConfig>, i: nat)
    requires i < |configs| && DistinctKeys(Tags(configs), Identity)
    ensures Trim(configs[i].tag) in GroupsOf(lower, configs)
    ensures
      var g := GroupsOf(lower, configs)[Trim(configs[i].tag)];
      g.tag == Trim(configs[i].tag) && |g.rules| == |configs[i].rules| && |g.includes| == |configs[i].includes| &&
      (forall j :: 0 <= j < |g.rules| ==> g.rules[j] == CompiledRule(lower, configs[i].rules[j])) &&
      forall j :: 0 <= j < |g.includes| ==> g.includes[j] == Trim(configs[i].includes[j])
  {
    hide Trim, CompiledRule;
    var n := |configs| - 1;
    var tags := Tags(configs);
    assert Tags(configs[..n]) == tags[..n];
    if i < n {
      forall j, k | 0 <= j < k < n ensures Identity(Tags(configs[..n])[j]) != Identity(Tags(configs[..n])[k]) {
        assert Identity(tags[j]) != Identity(tags[k]);
      }
      GroupTold(lower, configs[..n], i);
      assert Identity(tags[i]) != Identity(tags[n]);
    }
  }

  lemma RepeatedRule(lower: char -> char, configs: seq<RuleConfig>, i: nat, j: nat)
    requires j < i < |configs|
    requires RuleKey(CompiledRule(lower, configs[j])) == RuleKey(CompiledRule(lower, configs[i]))
    ensures !ValidRules(lower, configs)
  {
    var all := CompiledRules(lower, configs);
    assert RuleKey(all[j]) == RuleKey(all[i]);
  }

  lemma NewRule(lower: char -> char, configs: seq<RuleConfig>, i: nat)
    requires i < |configs| && ValidRules(lower, configs[..i]) && ValidRule(lower, configs[i])
    requires forall r :: r in CompiledRules(lower, configs[..i]) ==>
      RuleKey(r) != RuleKey(CompiledRule(lower, configs[i]))
    ensures ValidRules(lower, configs[..i + 1])
    ensures CompiledRules(lower, configs[..i + 1]) ==
      CompiledRules(lower, configs[..i]) + [CompiledRule(lower, configs[i])]
  {
    DistinctAppend(CompiledRules(lower, configs[..i]), CompiledRule(lower, configs[i]), RuleKey);
    assert forall j :: 0 <= j < i ==> configs[..i][j] == configs[..i + 1][j];
    assert CompiledRules(lower, configs[..i + 1]) ==
      CompiledRules(lower, configs[..i]) + [CompiledRule(lower, configs[i])];
  }

  ghost function KeySet(rules: seq<Rule>): set<string> {
    if rules == [] then {} else KeySet(rules[..|rules| - 1]) + {RuleKey(rules[|rules| - 1])}
  }

  lemma {:induction false} KeySetHas(rules: seq<Rule>, k: string) returns (j: nat)
    requires k in KeySet(rules)
    ensures j < |rules| && RuleKey(rules[j]) == k
  {
    j := |rules| - 1;
    if RuleKey(rules[j]) != k {
      j := KeySetHas(rules[..j], k);
    }
  }

  lemma {:induction false} KeySetAll(rules: seq<Rule>)
    ensures forall r :: r in rules ==> RuleKey(r) in KeySet(rules)
  {
    if rules != [] {
      KeySetAll(rules[..|rules| - 1]);
      assert rules == rules[..|rules| - 1] + [rules[|rules| - 1]];
    }
  }

  method CompileRules(lower: char -> char, configs: seq<RuleConfig>) returns (r: Option<seq<Rule>>)
    ensures r.Some? <==> ValidRules(lower, configs)
    ensures r.Some? ==> r.value == CompiledRules(lower, configs)
  {
    var rules: seq<Rule> := [];
    var seen: set<string> := {};
    for i := 0 to |configs|
      invariant rules == CompiledRules(lower, configs[..i])
      invariant seen == KeySet(rules)
      invariant ValidRules(lower, configs[..i])
    {
      var rule := CompiledRule(lower, configs[i]);
      if !ValidRule(lower, configs[i]) {
        return None;
      }
      if RuleKey(rule) in seen {
        ghost var j := KeySetHas(rules, RuleKey(rule));
        RepeatedRule(lower, configs, i, j);
        return None;
      }
      KeySetAll(rules);
      NewRule(lower, configs, i);
      assert (rules + [rule])[..|rules|] == rules;
      seen := seen + {RuleKey(rule)};
      rules := rules + [rule];
    }
    assert configs[..|configs|] == configs;
    r := Some(rules);
  }

  method CompileIncludes(configs: seq<string>) returns (r: Option<seq<string>>)
    ensures r.Some? <==> ValidIncludes(configs)
    ensures r.Some? ==> r.value == Trimmed(configs)
  {
    var includes: seq<string> := [];
    var seen: set<string> := {};
    for i := 0 to |configs|
      invariant includes == Trimmed(configs[..i]) && seen == set t | t in includes
      invariant ValidIncludes(configs[..i])
    {
      var included := Trim(configs[i]);
      if included == "" {
        return None;
      }
      if included in seen {
        ghost var j :| 0 <= j < |includes| && includes[j] == included;
        assert Identity(Trimmed(configs)[j]) == Identity(Trimmed(configs)[i]);
        return None;
      }
      DistinctAppend(includes, included, Identity);
      seen := seen + {included};
      includes := includes + [included];
      assert configs[..i + 1] == configs[..i] + [configs[i]];
      assert includes == Trimmed(configs[..i + 1]);
    }
    assert configs[..|configs|] == configs;
    r := Some(includes);
  }

  method CompileGroup(lower: char -> char, c: GroupConfig) returns (r: Option<Group>)
    ensures r.Some? <==> ValidGroup(lower, c)
    ensures r.Some? ==> r.value == Compiled(lower, c)
  {
    var tag := Trim(c.tag);
    if tag == "" {
      return None;
    }
    var rules := CompileRules(lower, c.rules);
    if rules.None? {
      return None;
    }
    var includes := CompileIncludes(c.includes);
    if includes.None? || (rules.value == [] && includes.value == []) {
      return None;
    }
    r := Some(Group(tag, rules.value, includes.value));
  }

  function Tags(configs: seq<GroupConfig>): seq<string> {
    seq(|configs|, i requires 0 <= i < |configs| => Trim(configs[i].tag))
  }

  function GroupsOf(lower: char -> char, configs: seq<GroupConfig>): (groups: Groups)
    ensures forall t :: t in groups <==> t in Tags(configs)
  {
    if configs == [] then map[]
    else
      var last := configs[|configs| - 1];
      assert Tags(configs) == Tags(configs[..|configs| - 1]) + [Trim(last.tag)];
      GroupsOf(lower, configs[..|configs| - 1])[Trim(last.tag) := Compiled(lower, last)]
  }

  ghost predicate ValidGroups(lower: char -> char, configs: seq<GroupConfig>) {
    (forall i :: 0 <= i < |configs| ==> ValidGroup(lower, configs[i])) && DistinctKeys(Tags(configs), Identity)
  }

  lemma RepeatedTag(lower: char -> char, configs: seq<GroupConfig>, i: nat)
    requires i < |configs| && Trim(configs[i].tag) in Tags(configs[..i])
    ensures !ValidGroups(lower, configs)
  {
    var j :| 0 <= j < i && Tags(configs[..i])[j] == Trim(configs[i].tag);
    assert Identity(Tags(configs)[j]) == Identity(Tags(configs)[i]);
  }

  lemma NewTag(lower: char -> char, configs: seq<GroupConfig>, i: nat)
    requires i < |configs| && ValidGroups(lower, configs[..i]) && ValidGroup(lower, configs[i])
    requires Trim(configs[i].tag) !in Tags(configs[..i])
    ensures ValidGroups(lower, configs[..i + 1])
    ensures Tags(configs[..i + 1]) == Tags(configs[..i]) + [Trim(configs[i].tag)]
  {
    DistinctAppend(Tags(configs[..i]), Trim(configs[i].tag), Identity);
    assert Tags(configs[..i + 1]) == Tags(configs[..i]) + [Trim(configs[i].tag)];
  }

  method CompileGroups(lower: char -> char, configs: seq<GroupConfig>)
      returns (ok: bool, order: seq<string>, groups: Groups)
    ensures ok <==> ValidGroups(lower, configs)
    ensures ok ==> order == Tags(configs) && groups == GroupsOf(lower, configs)
  {
    order, groups := [], map[];
    for i := 0 to |configs|
      invariant ValidGroups(lower, configs[..i])
      invariant order == Tags(configs[..i]) && groups == GroupsOf(lower, configs[..i])
    {
      assert configs[..i + 1][..i] == configs[..i];
      var group := CompileGroup(lower, configs[i]);
      if group.None? {
        return false, [], map[];
      }
      var tag := group.value.tag;
      if tag in groups {
        RepeatedTag(lower, configs, i);
        return false, [], map[];
      }
      NewTag(lower, configs, i);
      order := order + [tag];
      groups := groups[tag := group.value];
    }
    assert configs[..|configs|] == configs;
    ok := true;
  }

  // What a configuration must meet, and nothing more.
  ghost predicate Acceptable(lower: char -> char, configs: seq<GroupConfig>) {
    ValidGroups(lower, configs) && Closed(GroupsOf(lower, configs)) && Acyclic(GroupsOf(lower, configs))
  }

  method IncludesKnown(order: seq<string>, groups: Groups) returns (ok: bool)
    requires forall t :: t in order <==> t in groups
    ensures ok <==> Closed(groups)
  {
    for i := 0 to |order|
      invariant forall j, u :: 0 <= j < i && u in groups[order[j]].includes ==> u in groups
    {
      var includes := groups[order[i]].includes;
      for k := 0 to |includes|
        invariant forall u :: u in includes[..k] ==> u in groups
      {
        if includes[k] !in groups {
          return false;
        }
      }
      assert includes[..|includes|] == includes;
    }
    forall t, u | t in groups && u in groups[t].includes ensures u in groups {
      var j :| 0 <= j < |order| && order[j] == t;
    }
    ok := true;
  }

  // ---- matching ----

  predicate MatchesId(r: Rule, v: Vacancy) {
    r.employerId != "" && v.platform == r.platform && v.employerId == r.employerId
  }

  predicate MatchesName(r: Rule, v: Vacancy, name: string) {
    r.name != "" && (r.platform == "" || v.platform == r.platform) && name == r.name
  }

  // The evidence a group's own identities give: identifiers before names.
  ghost function Direct(lower: char -> char, tag: string, rules: seq<Rule>, v: Vacancy): Option<Evidence> {
    if exists i :: 0 <= i < |rules| && MatchesId(rules[i], v) then
      Some(Evidence(tag, ByEmployerId, v.platform, v.employerId, ""))
    else if exists i :: 0 <= i < |rules| && MatchesName(rules[i], v, NormalName(lower, v.employer)) then
      Some(Evidence(tag, ByName, v.platform, v.employer, ""))
    else None
  }

  method DirectEvidence(lower: char -> char, tag: string, rules: seq<Rule>, v: Vacancy) returns (r: Option<Evidence>)
    ensures r == Direct(lower, tag, rules, v)
  {
    for i := 0 to |rules|
      invariant forall j :: 0 <= j < i ==> !MatchesId(rules[j], v)
    {
      if MatchesId(rules[i], v) {
        return Some(Evidence(tag, ByEmployerId, v.platform, v.employerId, ""));
      }
    }
    var name := NormalName(lower, v.employer);
    for i := 0 to |rules|
      invariant forall j :: 0 <= j < i ==> !MatchesName(rules[j], v, name)
    {
      if MatchesName(rules[i], v, name) {
        return Some(Evidence(tag, ByName, v.platform, v.employer, ""));
      }
    }
    r := None;
  }

  // What a group names of a vacancy itself: its employer's identifier on its platform, or
  // else its employer's name, on its platform or on any.
  lemma DirectTold(lower: char -> char, tag: string, rules: seq<Rule>, v: Vacancy)
    ensures
      var byId := exists i :: 0 <= i < |rules| && NamesId(rules[i], v.platform, v.employerId);
      var byName := exists i :: 0 <= i < |rules| && NamesEmployer(rules[i], v.platform, NormalName(lower, v.employer));
      Direct(lower, tag, rules, v) ==
        if byId then Some(Evidence(tag, ByEmployerId, v.platform, v.employerId, ""))
        else if byName then Some(Evidence(tag, ByName, v.platform, v.employer, "")) else None
  {
    assert forall i :: 0 <= i < |rules| ==> (MatchesId(rules[i], v) <==> NamesId(rules[i], v.platform, v.employerId));
    var name := NormalName(lower, v.employer);
    assert forall i :: 0 <= i < |rules| ==>
      (MatchesName(rules[i], v, name) <==> NamesEmployer(rules[i], v.platform, name));
  }

  ghost predicate NamesId(r: Rule, platform: string, employerId: string) {
    employerId != "" && r == Rule(platform, employerId, r.name)
  }

  ghost predicate NamesEmployer(r: Rule, platform: string, name: string) {
    name != "" && (r == Rule(platform, r.employerId, name) || r == Rule("", r.employerId, name))
  }

  ghost predicate Names(matches: seq<GroupMatch>, tag: string) {
    exists i :: 0 <= i < |matches| && matches[i].groupTag == tag
  }

  lemma NamesAppend(a: seq<GroupMatch>, b: seq<GroupMatch>, tag: string)
    ensures Names(a + b, tag) <==> Names(a, tag) || Names(b, tag)
    ensures |b| == 1 ==> (Names(b, tag) <==> b[0].groupTag == tag)
  {
    if i :| 0 <= i < |a| && a[i].groupTag == tag {
      assert (a + b)[i].groupTag == tag;
    }
    if i :| 0 <= i < |b| && b[i].groupTag == tag {
      assert (a + b)[|a| + i].groupTag == tag;
    }
  }

  class EmployerGroupMatcher {
    const lower: char -> char
    const order: seq<string>
    const groups: Groups
    ghost const ranks: seq<string>

    constructor (lower: char -> char, order: seq<string>, groups: Groups, ghost ranks: seq<string>)
      ensures this.lower == lower && this.order == order && this.groups == groups && this.ranks == ranks
    {
      this.lower := lower;
      this.order := order;
      this.groups := groups;
      this.ranks := ranks;
    }

    ghost predicate Valid() {
      Closed(groups) && (forall t :: t in order <==> t in groups) &&
      Ranked(groups, ranks) && forall t :: t in groups ==> t in ranks
    }

    ghost function Height(tag: string): nat
      requires Valid()
    {
      if tag in groups then Position(ranks, tag) + 1 else 0
    }

    // What matching a group finds, without a cache: its own identities first, then
    // the first included group that matches.
    ghost function EvidenceOf(tag: string, v: Vacancy): Option<Evidence>
      requires Valid()
      decreases Height(tag), 1, 0
    {
      if tag !in groups then None
      else if Direct(lower, tag, groups[tag].rules, v).Some? then Direct(lower, tag, groups[tag].rules, v)
      else ThroughIncludes(tag, 0, v)
    }

    ghost function ThroughIncludes(tag: string, k: nat, v: Vacancy): Option<Evidence>
      requires Valid() && tag in groups && k <= |groups[tag].includes|
      decreases Height(tag), 0, |groups[tag].includes| - k
    {
      if k == |groups[tag].includes| then None
      else
        var child := groups[tag].includes[k];
        assert Edge(groups, tag, child);
        EdgeDescends(groups, ranks, tag, child);
        if EvidenceOf(child, v).Some? then
          Some(Evidence(tag, ByInclude, v.platform, "", EvidenceOf(child, v).value.groupTag))
        else ThroughIncludes(tag, k + 1, v)
    }

    // A group below this one names an identity of the vacancy.
    ghost predicate ReachesMatch(tag: string, v: Vacancy) {
      exists u :: Reaches(groups, tag, u) && u in groups && Direct(lower, u, groups[u].rules, v).Some?
    }

    lemma ThroughFirst(tag: string, k: nat, v: Vacancy) returns (j: nat)
      requires Valid() && tag in groups && k <= |groups[tag].includes| && ThroughIncludes(tag, k, v).Some?
      ensures k <= j < |groups[tag].includes| && EvidenceOf(groups[tag].includes[j], v).Some?
      decreases |groups[tag].includes| - k
    {
      j := k;
      if EvidenceOf(groups[tag].includes[k], v).None? {
        j := ThroughFirst(tag, k + 1, v);
      }
    }

    lemma {:induction false} ThroughAny(tag: string, k: nat, j: nat, v: Vacancy)
      requires Valid() && tag in groups && k <= j < |groups[tag].includes|
      requires EvidenceOf(groups[tag].includes[j], v).Some?
      ensures ThroughIncludes(tag, k, v).Some?
      decreases j - k
    {
      if k < j {
        ThroughAny(tag, k + 1, j, v);
      }
    }

    lemma {:induction false} MatchedReaches(tag: string, v: Vacancy) returns (p: seq<string>)
      requires Valid() && EvidenceOf(tag, v).Some?
      ensures IsPath(groups, p) && p[0] == tag && p[|p| - 1] in groups
      ensures Direct(lower, p[|p| - 1], groups[p[|p| - 1]].rules, v).Some?
      decreases Height(tag)
    {
      if Direct(lower, tag, groups[tag].rules, v).Some? {
        p := [tag];
      } else {
        var j := ThroughFirst(tag, 0, v);
        var child := groups[tag].includes[j];
        assert Edge(groups, tag, child);
        EdgeDescends(groups, ranks, tag, child);
        var rest := MatchedReaches(child, v);
        PathPrepend(groups, tag, rest);
        p := [tag] + rest;
      }
    }

    lemma {:induction false} ReachingMatches(p: seq<string>, v: Vacancy)
      requires Valid() && IsPath(groups, p) && p[|p| - 1] in groups
      requires Direct(lower, p[|p| - 1], groups[p[|p| - 1]].rules, v).Some?
      ensures EvidenceOf(p[0], v).Some?
    {
      if |p| > 1 {
        assert Edge(groups, p[0], p[0 + 1]);
        PathSuffix(groups, p, 1);
        ReachingMatches(p[1..], v);
        var j :| 0 <= j < |groups[p[0]].includes| && groups[p[0]].includes[j] == p[1];
        ThroughAny(p[0], 0, j, v);
      }
    }

    // Main result: a group matches exactly when a group reachable through includes
    // names an identity of the vacancy; evidence through an include names the first
    // included group that matches itself.
    lemma MatchesExactly(tag: string, v: Vacancy)
      requires Valid()
      ensures EvidenceOf(tag, v).Some? <==> ReachesMatch(tag, v)
      ensures EvidenceOf(tag, v).Some? ==> EvidenceOf(tag, v).value.groupTag == tag
      ensures EvidenceOf(tag, v).Some? && EvidenceOf(tag, v).value.kind == ByInclude ==>
        FirstThrough(tag, EvidenceOf(tag, v).value.via, v)
      ensures tag in groups && Direct(lower, tag, groups[tag].rules, v).Some? ==>
        EvidenceOf(tag, v) == Direct(lower, tag, groups[tag].rules, v)
      decreases Height(tag)
    {
      if EvidenceOf(tag, v).Some? {
        var p := MatchedReaches(tag, v);
        assert Reaches(groups, tag, p[|p| - 1]);
        if Direct(lower, tag, groups[tag].rules, v).None? {
          var k := ThroughNames(tag, 0, v);
        }
      }
      if ReachesMatch(tag, v) {
        var u :| Reaches(groups, tag, u) && u in groups && Direct(lower, u, groups[u].rules, v).Some?;
        var p :| IsPath(groups, p) && p[0] == tag && p[|p| - 1] == u;
        ReachingMatches(p, v);
      }
    }

    // The first included group that matches.
    ghost predicate FirstThrough(tag: string, via: string, v: Vacancy) {
      tag in groups && exists k :: 0 <= k < |groups[tag].includes| && FirstAt(groups[tag].includes, k, via, v)
    }

    ghost predicate FirstAt(includes: seq<string>, k: nat, via: string, v: Vacancy)
      requires k < |includes|
    {
      includes[k] == via && ReachesMatch(via, v) && forall j :: 0 <= j < k ==> !ReachesMatch(includes[j], v)
    }

    lemma ThroughNames(tag: string, k: nat, v: Vacancy) returns (n: nat)
      requires Valid() && tag in groups && k <= |groups[tag].includes| && ThroughIncludes(tag, k, v).Some?
      requires forall j :: 0 <= j < k ==> !ReachesMatch(groups[tag].includes[j], v)
      ensures ThroughIncludes(tag, k, v).value.groupTag == tag && ThroughIncludes(tag, k, v).value.kind == ByInclude
      ensures n < |groups[tag].includes|
      ensures FirstAt(groups[tag].includes, n, ThroughIncludes(tag, k, v).value.via, v)
      decreases Height(tag), |groups[tag].includes| - k
    {
      hide ReachesMatch, Direct, Ranked;
      var child := groups[tag].includes[k];
      assert Edge(groups, tag, child);
      EdgeDescends(groups, ranks, tag, child);
      MatchesExactly(child, v);
      if EvidenceOf(child, v).Some? {
        n := k;
      } else {
        n := ThroughNames(tag, k + 1, v);
      }
    }

    // Every matching group, in configuration order.
    method Match(v: Vacancy) returns (matches: seq<GroupMatch>)
      requires Valid()
      ensures matches == MatchesAmong(order, v)
      ensures forall tag :: tag in order && ReachesMatch(tag, v) <==> Names(matches, tag)
    {
      var run := new MatchRun(this, v);
      matches := [];
      for i := 0 to |order|
        invariant run.Valid() && run.matcher == this && run.vacancy == v && fresh(run)
        invariant matches == MatchesAmong(order[..i], v)
      {
        var evidence := run.MatchGroup(order[i]);
        assert order[..i + 1][..i] == order[..i];
        if evidence.Some? {
          matches := matches + [GroupMatch(order[i], evidence.value)];
        }
      }
      assert order[..|order|] == order;
      forall tag
        ensures tag in order && ReachesMatch(tag, v) <==> Names(matches, tag)
      {
        MatchesListed(order, v, tag);
        MatchesExactly(tag, v);
      }
    }

    ghost function MatchesAmong(tags: seq<string>, v: Vacancy): seq<GroupMatch>
      requires Valid()
    {
      if tags == [] then []
      else
        var last := tags[|tags| - 1];
        MatchesAmong(tags[..|tags| - 1], v) +
        if EvidenceOf(last, v).Some? then [GroupMatch(last, EvidenceOf(last, v).value)] else []
    }

    lemma {:induction false} MatchesListed(tags: seq<string>, v: Vacancy, tag: string)
      requires Valid()
      ensures tag in tags && EvidenceOf(tag, v).Some? <==> Names(MatchesAmong(tags, v), tag)
    {
      if tags != [] {
        var init := tags[..|tags| - 1];
        var last := tags[|tags| - 1];
        MatchesListed(init, v, tag);
        assert tags == init + [last];
        var added := if EvidenceOf(last, v).Some? then [GroupMatch(last, EvidenceOf(last, v).value)] else [];
        NamesAppend(MatchesAmong(init, v), added, tag);
      }
    }

    // Each matching tag is listed at the place its order gives it, with its evidence.
    lemma {:induction false} MatchedAt(tags: seq<string>, v: Vacancy, i: nat)
      requires Valid() && i < |tags|
      ensures MatchesAmong(tags[..i], v) <= MatchesAmong(tags, v)
      ensures EvidenceOf(tags[i], v).Some? ==>
        |MatchesAmong(tags[..i], v)| < |MatchesAmong(tags, v)| &&
        MatchesAmong(tags, v)[|MatchesAmong(tags[..i], v)|] == GroupMatch(tags[i], EvidenceOf(tags[i], v).value)
    {
      var n := |tags| - 1;
      if i < n {
        MatchedAt(tags[..n], v, i);
        assert tags[..n][..i] == tags[..i];
      }
    }

    ghost predicate FirstAmong(tags: seq<string>, i: nat, v: Vacancy, m: GroupMatch)
      requires Valid() && i < |tags|
    {
      m == GroupMatch(Trim(tags[i]), m.evidence) && EvidenceOf(Trim(tags[i]), v) == Some(m.evidence) &&
      NoneBefore(tags, i, v)
    }

    ghost predicate NoneBefore(tags: seq<string>, i: nat, v: Vacancy)
      requires Valid() && i <= |tags|
    {
      forall j :: 0 <= j < i ==> EvidenceOf(Trim(tags[j]), v).None?
    }

    lemma NoneReaches(tags: seq<string>, v: Vacancy)
      requires Valid()
      ensures NoneBefore(tags, |tags|, v) <==> forall i :: 0 <= i < |tags| ==> !ReachesMatch(Trim(tags[i]), v)
    {
      forall i | 0 <= i < |tags| ensures EvidenceOf(Trim(tags[i]), v).None? <==> !ReachesMatch(Trim(tags[i]), v) {
        MatchesExactly(Trim(tags[i]), v);
      }
    }

    // The first of the wanted groups that matches.
    method MatchAny(v: Vacancy, tags: seq<string>) returns (r: Option<GroupMatch>)
      requires Valid()
      ensures r.Some? <==> exists i :: 0 <= i < |tags| && ReachesMatch(Trim(tags[i]), v)
      ensures r.Some? ==> exists i :: 0 <= i < |tags| && FirstAmong(tags, i, v, r.value)
    {
      var run := new MatchRun(this, v);
      for i := 0 to |tags|
        invariant run.Valid() && run.matcher == this && run.vacancy == v && fresh(run)
        invariant NoneBefore(tags, i, v)
      {
        var tag := Trim(tags[i]);
        var evidence := run.MatchGroup(tag);
        if evidence.Some? {
          assert FirstAmong(tags, i, v, GroupMatch(tag, evidence.value));
          MatchesExactly(tag, v);
          return Some(GroupMatch(tag, evidence.value));
        }
      }
      NoneReaches(tags, v);
      r := None;
    }
  }

  lemma PathPrepend(groups: Groups, t: string, p: seq<string>)
    requires IsPath(groups, p) && Edge(groups, t, p[0])
    ensures IsPath(groups, [t] + p)
  {
    var q := [t] + p;
    forall k | 0 <= k < |q| - 1 ensures Edge(groups, q[k], q[k + 1]) {
      if k > 0 {
        assert Edge(groups, p[k - 1], p[k - 1 + 1]);
      }
    }
  }

  // One pass over the groups for one vacancy, remembering what was decided.
  class MatchRun {
    const matcher: EmployerGroupMatcher
    const vacancy: Vacancy
    var cache: map<string, Option<Evidence>>

    constructor (matcher: EmployerGroupMatcher, vacancy: Vacancy)
      requires matcher.Valid()
      ensures Valid() && this.matcher == matcher && this.vacancy == vacancy
    {
      this.matcher := matcher;
      this.vacancy := vacancy;
      cache := map[];
    }

    ghost predicate Valid()
      reads this
    {
      matcher.Valid() && forall t :: t in cache ==> cache[t] == matcher.EvidenceOf(t, vacancy)
    }

    // Whatever was cached before, the result is that of matching without a cache.
    method MatchGroup(tag: string) returns (r: Option<Evidence>)
      requires Valid()
      modifies this
      ensures Valid() && r == matcher.EvidenceOf(tag, vacancy)
      decreases matcher.Height(tag)
    {
      if tag in cache {
        return cache[tag];
      }
      if tag !in matcher.groups {
        cache := cache[tag := None];
        return None;
      }
      var group := matcher.groups[tag];
      r := DirectEvidence(matcher.lower, tag, group.rules, vacancy);
      if r.Some? {
        cache := cache[tag := r];
        return;
      }
      for i := 0 to |group.includes|
        invariant Valid()
        invariant matcher.EvidenceOf(tag, vacancy) == matcher.ThroughIncludes(tag, i, vacancy)
      {
        assert Edge(matcher.groups, tag, group.includes[i]);
        EdgeDescends(matcher.groups, matcher.ranks, tag, group.includes[i]);
        var child := MatchGroup(group.includes[i]);
        if child.Some? {
          r := Some(Evidence(tag, ByInclude, vacancy.platform, "", child.value.groupTag));
          cache := cache[tag := r];
          return;
        }
      }
      r := None;
      cache := cache[tag := None];
    }
  }

  // A matcher is built exactly from the acceptable configurations.
  method NewEmployerGroupMatcher(lower: char -> char, configs: seq<GroupConfig>)
      returns (r: Option<EmployerGroupMatcher>)
    ensures r.Some? <==> Acceptable(lower, configs)
    ensures r.Some? ==> r.value.Valid() && r.value.lower == lower
    ensures r.Some? ==> r.value.order == Tags(configs) && r.value.groups == GroupsOf(lower, configs)
  {
    var ok, order, groups := CompileGroups(lower, configs);
    if !ok {
      return None;
    }
    var known := IncludesKnown(order, groups);
    if !known {
      return None;
    }
    ghost var ranks;
    var cycle;
    cycle, ranks := ValidateAcyclic(groups, order);
    if cycle.Some? {
      return None;
    }
    var matcher := new EmployerGroupMatcher(lower, order, groups, ranks);
    r := Some(matcher);
  }
}
