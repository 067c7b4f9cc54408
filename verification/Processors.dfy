// Text processors of processor/text.go: a registry whose chains name other processors
// of the same registry, guarded by the stack of tags being processed.
module Processors {
  import opened Wrappers
  import opened Text

  const MAXIMUM_TEXT := 100_000

  datatype TextInput = TextInput(text: string, variables: map<string, string>)

  datatype TextStep = TextStep(
    tag: string, kind: string, inputDigest: string, outputDigest: string, changed: bool, warnings: seq<string>)

  datatype TextOutput = TextOutput(text: string, steps: seq<TextStep>, warnings: seq<string>)

  datatype Produced = Produced(text: string, warnings: seq<string>)

  // What is registered under a tag: a processor of its own, or a chain of tags.
  datatype Processor =
    | Leaf(kind: string, run: TextInput -> Option<Produced>)
    | Chain(steps: seq<string>)

  type Processors = map<string, Processor>

  // The two digests of the source, as functions.
  datatype Digests = Digests(input: TextInput -> string, text: string -> string)

  predicate ValidText(s: string) {
    |s| <= MAXIMUM_TEXT
  }

  function KindOf(p: Processor): string {
    if p.Leaf? then p.kind else "chain"
  }

  // ---- meaning: a registered tag unfolds into a tree, and a tree transforms texts ----

  datatype Tree = LeafNode(tag: string) | ChainNode(tag: string, children: seq<Tree>)

  ghost function Unused(m: Processors, stack: seq<string>): set<string> {
    m.Keys - set t | t in stack
  }

  ghost function Expand(m: Processors, tag: string, stack: seq<string>): Option<Tree>
    decreases Unused(m, stack), 0
  {
    var t := Trim(tag);
    if t == "" || t in stack || t !in m then None
    else if m[t].Leaf? then Some(LeafNode(t))
    else
      assert t in Unused(m, stack) && t !in Unused(m, stack + [t]);
      var children := ExpandAll(m, m[t].steps, stack + [t]);
      if children.None? then None else Some(ChainNode(t, children.value))
  }

  ghost function ExpandAll(m: Processors, tags: seq<string>, stack: seq<string>): Option<seq<Tree>>
    decreases Unused(m, stack), 1, |tags|
  {
    if tags == [] then Some([])
    else
      var before := ExpandAll(m, tags[..|tags| - 1], stack);
      var last := Expand(m, tags[|tags| - 1], stack);
      if before.None? || last.None? then None else Some(before.value + [last.value])
  }

  // The tree's tags are those it was unfolded from.
  ghost predicate Fits(m: Processors, tree: Tree) {
    tree.tag in m && tree.LeafNode? == m[tree.tag].Leaf? &&
    (tree.ChainNode? ==> AllFit(m, tree.children))
  }

  ghost predicate AllFit(m: Processors, trees: seq<Tree>) {
    trees == [] || (AllFit(m, trees[..|trees| - 1]) && Fits(m, trees[|trees| - 1]))
  }

  // The record a processor adds after its own output.
  function StepOf(m: Processors, d: Digests, tag: string, input: TextInput, out: Produced): TextStep
    requires tag in m
  {
    TextStep(tag, KindOf(m[tag]), d.input(input), d.text(out.text), out.text != input.text, out.warnings)
  }

  ghost function Evaluate(m: Processors, d: Digests, tree: Tree, input: TextInput): Option<TextOutput>
    requires Fits(m, tree)
    decreases tree
  {
    if !ValidText(input.text) then None
    else
      var inner := match tree
        case LeafNode(tag) => LeafOutput(m, tag, input)
        case ChainNode(_, children) => EvaluateAll(m, d, children, input);
      if inner.None? || !ValidText(inner.value.text) then None
      else
        var out := inner.value;
        Some(out.(steps := out.steps + [StepOf(m, d, tree.tag, input, Produced(out.text, out.warnings))]))
  }

  ghost function LeafOutput(m: Processors, tag: string, input: TextInput): Option<TextOutput>
    requires tag in m && m[tag].Leaf?
  {
    var out := m[tag].run(input);
    if out.None? then None else Some(TextOutput(out.value.text, [], out.value.warnings))
  }

  ghost function EvaluateAll(m: Processors, d: Digests, trees: seq<Tree>, input: TextInput): Option<TextOutput>
    requires AllFit(m, trees)
    decreases trees
  {
    if trees == [] then Some(TextOutput(input.text, [], []))
    else
      var before := EvaluateAll(m, d, trees[..|trees| - 1], input);
      if before.None? then None
      else
        var last := Evaluate(m, d, trees[|trees| - 1], input.(text := before.value.text));
        if last.None? then None
        else Some(TextOutput(last.value.text, before.value.steps + last.value.steps,
          before.value.warnings + last.value.warnings))
  }

  lemma {:induction false} ExpandFits(m: Processors, tag: string, stack: seq<string>)
    ensures Expand(m, tag, stack).Some? ==>
      Fits(m, Expand(m, tag, stack).value) && Expand(m, tag, stack).value.tag == Trim(tag)
    decreases Unused(m, stack), 0
  {
    var t := Trim(tag);
    if t != "" && t !in stack && t in m && m[t].Chain? {
      assert t in Unused(m, stack) && t !in Unused(m, stack + [t]);
      ExpandAllFit(m, m[t].steps, stack + [t]);
    }
  }

  lemma {:induction false} ExpandAllFit(m: Processors, tags: seq<string>, stack: seq<string>)
    ensures ExpandAll(m, tags, stack).Some? ==>
      AllFit(m, ExpandAll(m, tags, stack).value) && |ExpandAll(m, tags, stack).value| == |tags|
    decreases Unused(m, stack), 1, |tags|
  {
    if tags != [] {
      var before := ExpandAll(m, tags[..|tags| - 1], stack);
      var last := Expand(m, tags[|tags| - 1], stack);
      ExpandAllFit(m, tags[..|tags| - 1], stack);
      ExpandFits(m, tags[|tags| - 1], stack);
      if before.Some? && last.Some? {
        assert (before.value + [last.value])[..|before.value|] == before.value;
      }
    }
  }

  // ---- the registry ----

  class Registry {
    const digests: Digests
    var processors: Processors

    constructor (digests: Digests)
      ensures processors == map[] && this.digests == digests
    {
      this.digests := digests;
      processors := map[];
    }

    method Register(tag: string, instance: Processor) returns (ok: bool)
      modifies this
      ensures ok <==> Trim(tag) != "" && Trim(KindOf(instance)) != "" && Trim(tag) !in old(processors)
      ensures processors == if ok then old(processors)[Trim(tag) := instance] else old(processors)
    {
      var trimmed := Trim(tag);
      if trimmed == "" || Trim(KindOf(instance)) == "" || trimmed in processors {
        return false;
      }
      processors := processors[trimmed := instance];
      ok := true;
    }

    // What processing a tag gives, read off its unfolding.
    ghost function Meaning(tag: string, stack: seq<string>, input: TextInput): Option<TextOutput>
      reads this
    {
      ExpandFits(processors, tag, stack);
      var tree := Expand(processors, tag, stack);
      if tree.None? then None else Evaluate(processors, digests, tree.value, input)
    }

    // Terminates for every registry, cyclic chains included: each nested call has one
    // registered tag fewer that is not on the stack.
    method Process(tag: string, stack: seq<string>, input: TextInput) returns (r: Option<TextOutput>)
      ensures r == Meaning(tag, stack, input)
      ensures r.Some? ==>
        |input.text| <= 100_000 && |r.value.text| <= 100_000 && r.value.steps != [] &&
        var last := r.value.steps[|r.value.steps| - 1];
        last.tag == Trim(tag) && last.inputDigest == digests.input(input) &&
        last.outputDigest == digests.text(r.value.text) && (last.changed <==> r.value.text != input.text) &&
        last.warnings == r.value.warnings
      decreases Unused(processors, stack), 0
    {
      ExpandFits(processors, tag, stack);
      if !ValidText(input.text) {
        return None;
      }
      var trimmed := Trim(tag);
      if trimmed == "" {
        return None;
      }
      if trimmed in stack {
        return None;
      }
      if trimmed !in processors {
        return None;
      }
      var instance := processors[trimmed];
      var output: Option<TextOutput>;
      match instance {
        case Leaf(_, run) =>
          var produced := run(input);
          output := if produced.None? then None else Some(TextOutput(produced.value.text, [], produced.value.warnings));
        case Chain(steps) =>
          assert trimmed in Unused(processors, stack) && trimmed !in Unused(processors, stack + [trimmed]);
          ExpandAllFit(processors, steps, stack + [trimmed]);
          output := ProcessChain(steps, stack + [trimmed], input);
      }
      if output.None? || !ValidText(output.value.text) {
        return None;
      }
      var step := StepOf(processors, digests, trimmed, input, Produced(output.value.text, output.value.warnings));
      r := Some(output.value.(steps := output.value.steps + [step]));
    }

    ghost function ChainMeaning(steps: seq<string>, stack: seq<string>, input: TextInput): Option<TextOutput>
      reads this
    {
      ExpandAllFit(processors, steps, stack);
      var trees := ExpandAll(processors, steps, stack);
      if trees.None? then None else EvaluateAll(processors, digests, trees.value, input)
    }

    // One more step of a chain.
    lemma ChainNext(steps: seq<string>, stack: seq<string>, input: TextInput, i: nat)
      requires i < |steps| && ExpandAll(processors, steps[..i], stack).Some? &&
        ChainMeaning(steps[..i], stack, input).Some?
      ensures var before := ChainMeaning(steps[..i], stack, input).value;
        var last := Meaning(steps[i], stack, input.(text := before.text));
        ChainMeaning(steps[..i + 1], stack, input) ==
        if last.None? then None
        else Some(TextOutput(last.value.text, before.steps + last.value.steps, before.warnings + last.value.warnings))
    {
      ExpandAllFit(processors, steps[..i], stack);
      ExpandAllFit(processors, steps[..i + 1], stack);
      ExpandFits(processors, steps[i], stack);
      assert steps[..i + 1][..i] == steps[..i] && steps[..i + 1][i] == steps[i];
      var before := ExpandAll(processors, steps[..i], stack).value;
      var last := Expand(processors, steps[i], stack);
      if last.Some? {
        assert (before + [last.value])[..|before|] == before;
      }
    }

    method ProcessChain(steps: seq<string>, stack: seq<string>, input: TextInput) returns (r: Option<TextOutput>)
      ensures r == ChainMeaning(steps, stack, input)
      decreases Unused(processors, stack), 1
    {
      var result := TextOutput(input.text, [], []);
      for i := 0 to |steps|
        invariant ExpandAll(processors, steps[..i], stack).Some?
        invariant ChainMeaning(steps[..i], stack, input) == Some(result)
      {
        var step := Process(steps[i], stack, TextInput(result.text, input.variables));
        ChainNext(steps, stack, input, i);
        if step.None? {
          ChainFails(steps, stack, input, i + 1);
          return None;
        }
        result := TextOutput(step.value.text, result.steps + step.value.steps, result.warnings + step.value.warnings);
      }
      assert steps[..|steps|] == steps;
      r := Some(result);
    }

    lemma {:induction false} ChainFails(steps: seq<string>, stack: seq<string>, input: TextInput, i: nat)
      requires i <= |steps| && ChainMeaning(steps[..i], stack, input).None?
      ensures ChainMeaning(steps, stack, input).None?
      decreases |steps| - i
    {
      if i == |steps| {
        assert steps[..i] == steps;
      } else {
        ExpandAllFit(processors, steps[..i], stack);
        ExpandAllFit(processors, steps[..i + 1], stack);
        assert steps[..i + 1][..i] == steps[..i];
        var before := ExpandAll(processors, steps[..i], stack);
        var last := Expand(processors, steps[i], stack);
        if before.Some? && last.Some? {
          assert (before.value + [last.value])[..|before.value|] == before.value;
        }
        ChainFails(steps, stack, input, i + 1);
      }
    }
  }

  // ---- the text is the composition of the leaves ----

  ghost function LeavesOf(tree: Tree): seq<string>
    decreases tree
  {
    match tree
    case LeafNode(tag) => [tag]
    case ChainNode(_, children) => LeavesOfAll(children)
  }

  ghost function LeavesOfAll(trees: seq<Tree>): seq<string>
    decreases trees
  {
    if trees == [] then [] else LeavesOfAll(trees[..|trees| - 1]) + LeavesOf(trees[|trees| - 1])
  }

  ghost predicate AreLeaves(m: Processors, leaves: seq<string>) {
    forall i :: 0 <= i < |leaves| ==> leaves[i] in m && m[leaves[i]].Leaf?
  }

  // Applying leaf processors left to right, every text in between valid.
  ghost function Compose(m: Processors, leaves: seq<string>, input: TextInput): Option<string>
    requires AreLeaves(m, leaves)
  {
    if !ValidText(input.text) then None
    else if leaves == [] then Some(input.text)
    else
      var out := m[leaves[0]].run(input);
      if out.None? then None else Compose(m, leaves[1..], input.(text := out.value.text))
  }

  lemma {:induction false} ComposeAppend(m: Processors, a: seq<string>, b: seq<string>, input: TextInput)
    requires AreLeaves(m, a) && AreLeaves(m, b)
    ensures AreLeaves(m, a + b)
    ensures Compose(m, a + b, input) ==
      if Compose(m, a, input).None? then None else Compose(m, b, input.(text := Compose(m, a, input).value))
  {
    if a == [] {
      assert a + b == b;
    } else {
      var out := m[a[0]].run(input);
      assert (a + b)[1..] == a[1..] + b;
      if out.Some? {
        ComposeAppend(m, a[1..], b, input.(text := out.value.text));
      }
    }
  }

  lemma {:induction false} LeavesAreLeaves(m: Processors, tree: Tree)
    requires Fits(m, tree)
    ensures AreLeaves(m, LeavesOf(tree))
    decreases tree
  {
    if tree.ChainNode? {
      AllLeavesAreLeaves(m, tree.children);
    }
  }

  lemma {:induction false} AllLeavesAreLeaves(m: Processors, trees: seq<Tree>)
    requires AllFit(m, trees)
    ensures AreLeaves(m, LeavesOfAll(trees))
    decreases trees
  {
    if trees != [] {
      AllLeavesAreLeaves(m, trees[..|trees| - 1]);
      LeavesAreLeaves(m, trees[|trees| - 1]);
    }
  }

  // Main result: processing succeeds exactly when the flattened leaves compose, and
  // gives their composition.
  lemma {:induction false} EvaluateComposes(m: Processors, d: Digests, tree: Tree, input: TextInput)
    requires Fits(m, tree)
    ensures AreLeaves(m, LeavesOf(tree))
    ensures Evaluate(m, d, tree, input).Some? <==> Compose(m, LeavesOf(tree), input).Some?
    ensures Evaluate(m, d, tree, input).Some? ==>
      Evaluate(m, d, tree, input).value.text == Compose(m, LeavesOf(tree), input).value
    decreases tree
  {
    LeavesAreLeaves(m, tree);
    match tree
    case LeafNode(tag) => assert [tag][1..] == [];
    case ChainNode(_, children) => EvaluateAllComposes(m, d, children, input);
  }

  lemma {:induction false} EvaluateAllComposes(m: Processors, d: Digests, trees: seq<Tree>, input: TextInput)
    requires AllFit(m, trees)
    ensures AreLeaves(m, LeavesOfAll(trees))
    ensures ValidText(input.text) ==>
      (EvaluateAll(m, d, trees, input).Some? <==> Compose(m, LeavesOfAll(trees), input).Some?)
    ensures ValidText(input.text) && EvaluateAll(m, d, trees, input).Some? ==>
      EvaluateAll(m, d, trees, input).value.text == Compose(m, LeavesOfAll(trees), input).value &&
      ValidText(EvaluateAll(m, d, trees, input).value.text)
    decreases trees
  {
    AllLeavesAreLeaves(m, trees);
    if trees != [] {
      var init, last := trees[..|trees| - 1], trees[|trees| - 1];
      AllLeavesAreLeaves(m, init);
      LeavesAreLeaves(m, last);
      EvaluateAllComposes(m, d, init, input);
      ComposeAppend(m, LeavesOfAll(init), LeavesOf(last), input);
      var before := EvaluateAll(m, d, init, input);
      if before.Some? {
        EvaluateComposes(m, d, last, input.(text := before.value.text));
      }
    }
  }

  // ---- the steps are the post-order trace ----

  ghost function PostOrder(tree: Tree): seq<string>
    decreases tree
  {
    match tree
    case LeafNode(tag) => [tag]
    case ChainNode(tag, children) => PostOrderAll(children) + [tag]
  }

  ghost function PostOrderAll(trees: seq<Tree>): seq<string>
    decreases trees
  {
    if trees == [] then [] else PostOrderAll(trees[..|trees| - 1]) + PostOrder(trees[|trees| - 1])
  }

  ghost function TagsOf(steps: seq<TextStep>): (tags: seq<string>)
    ensures |tags| == |steps| && forall i :: 0 <= i < |tags| ==> tags[i] == steps[i].tag
  {
    if steps == [] then [] else TagsOf(steps[..|steps| - 1]) + [steps[|steps| - 1].tag]
  }

  lemma TagsConcat(a: seq<TextStep>, b: seq<TextStep>)
    ensures TagsOf(a + b) == TagsOf(a) + TagsOf(b)
  {
  }

  // Main result on provenance: one step per processor run, in post-order; the last
  // describes the whole run.
  lemma {:induction false} StepsArePostOrder(m: Processors, d: Digests, tree: Tree, input: TextInput)
    requires Fits(m, tree) && Evaluate(m, d, tree, input).Some?
    ensures TagsOf(Evaluate(m, d, tree, input).value.steps) == PostOrder(tree)
    decreases tree
  {
    var out := Evaluate(m, d, tree, input).value;
    match tree
    case LeafNode(tag) => assert TagsOf(out.steps) == [tag];
    case ChainNode(tag, children) =>
      AllStepsArePostOrder(m, d, children, input);
      var inner := EvaluateAll(m, d, children, input).value;
      assert TagsOf(out.steps) == TagsOf(inner.steps) + [tag];
  }

  lemma {:induction false} AllStepsArePostOrder(m: Processors, d: Digests, trees: seq<Tree>, input: TextInput)
    requires AllFit(m, trees) && EvaluateAll(m, d, trees, input).Some?
    ensures TagsOf(EvaluateAll(m, d, trees, input).value.steps) == PostOrderAll(trees)
    decreases trees
  {
    if trees != [] {
      var init, last := trees[..|trees| - 1], trees[|trees| - 1];
      var before := EvaluateAll(m, d, init, input).value;
      var next := input.(text := before.text);
      AllStepsArePostOrder(m, d, init, input);
      StepsArePostOrder(m, d, last, next);
      TagsConcat(before.steps, Evaluate(m, d, last, next).value.steps);
    }
  }

  // What one step says: which processor ran, of what kind, on which text and to which, and,
  // of a processor of its own, that it made the one of the other.
  ghost predicate StepSays(m: Processors, d: Digests, s: TextStep, input: TextInput, from: string, to: string) {
    s.tag in m && s.inputDigest == d.input(input.(text := from)) && s.outputDigest == d.text(to) &&
    (s.changed <==> from != to) &&
    match m[s.tag]
    case Leaf(kind, run) => s.kind == kind && run(input.(text := from)) == Some(Produced(to, s.warnings))
    case Chain(_) => s.kind == "chain"
  }

  ghost predicate Says(m: Processors, d: Digests, s: TextStep, input: TextInput) {
    exists from, to :: StepSays(m, d, s, input, from, to)
  }

  ghost predicate AllSay(m: Processors, d: Digests, steps: seq<TextStep>, input: TextInput) {
    forall i :: 0 <= i < |steps| ==> Says(m, d, steps[i], input)
  }

  // Main result on steps: every one of them says what was run on what.
  lemma {:induction false} StepsTold(m: Processors, d: Digests, tree: Tree, input: TextInput)
    requires Fits(m, tree) && Evaluate(m, d, tree, input).Some?
    ensures AllSay(m, d, Evaluate(m, d, tree, input).value.steps, input)
    decreases tree
  {
    hide AllSay;
    var out := Evaluate(m, d, tree, input).value;
    match tree
    case LeafNode(tag) =>
      OneMoreSays(m, d, [], out.steps[0], input, input.text, out.text);
      assert out.steps == [] + [out.steps[0]];
    case ChainNode(tag, children) =>
      AllStepsTold(m, d, children, input);
      var inner := EvaluateAll(m, d, children, input).value;
      OneMoreSays(m, d, inner.steps, out.steps[|inner.steps|], input, input.text, out.text);
      assert out.steps == inner.steps + [out.steps[|inner.steps|]];
  }

  lemma OneMoreSays(m: Processors, d: Digests, steps: seq<TextStep>, s: TextStep, input: TextInput, from: string,
      to: string)
    requires steps == [] || AllSay(m, d, steps, input)
    ensures StepSays(m, d, s, input, from, to) ==> AllSay(m, d, steps + [s], input)
  {
    if StepSays(m, d, s, input, from, to) {
      hide StepSays;
      var all := steps + [s];
      forall i | 0 <= i < |all| ensures Says(m, d, all[i], input) {
        if i < |steps| {
          assert all[i] == steps[i];
        } else {
          assert StepSays(m, d, all[i], input, from, to);
        }
      }
    }
  }

  lemma {:induction false} AllStepsTold(m: Processors, d: Digests, trees: seq<Tree>, input: TextInput)
    requires AllFit(m, trees) && EvaluateAll(m, d, trees, input).Some?
    ensures AllSay(m, d, EvaluateAll(m, d, trees, input).value.steps, input)
    decreases trees
  {
    if trees != [] {
      var init, last := trees[..|trees| - 1], trees[|trees| - 1];
      var before := EvaluateAll(m, d, init, input).value;
      var next := input.(text := before.text);
      AllStepsTold(m, d, init, input);
      StepsTold(m, d, last, next);
      BothSay(m, d, before.steps, Evaluate(m, d, last, next).value.steps, input, before.text);
    }
  }

  lemma BothSay(m: Processors, d: Digests, a: seq<TextStep>, b: seq<TextStep>, input: TextInput, text: string)
    requires AllSay(m, d, a, input) && AllSay(m, d, b, input.(text := text))
    ensures AllSay(m, d, a + b, input)
  {
    var all := a + b;
    forall i | 0 <= i < |all| ensures Says(m, d, all[i], input) {
      if i < |a| {
        assert all[i] == a[i];
      } else {
        var from, to :| StepSays(m, d, b[i - |a|], input.(text := text), from, to);
        assert input.(text := text).(text := from) == input.(text := from);
        assert StepSays(m, d, all[i], input, from, to);
      }
    }
  }

  // The warnings of the leaves, each on the text the leaves before it made.
  ghost function WarningsOf(m: Processors, leaves: seq<string>, input: TextInput): seq<string>
    requires AreLeaves(m, leaves)
  {
    if leaves == [] then []
    else
      var out := m[leaves[0]].run(input);
      if out.None? then [] else out.value.warnings + WarningsOf(m, leaves[1..], input.(text := out.value.text))
  }

  lemma {:induction false} WarningsAppend(m: Processors, a: seq<string>, b: seq<string>, input: TextInput)
    requires AreLeaves(m, a) && AreLeaves(m, b) && Compose(m, a, input).Some?
    ensures AreLeaves(m, a + b)
    ensures WarningsOf(m, a + b, input) ==
      WarningsOf(m, a, input) + WarningsOf(m, b, input.(text := Compose(m, a, input).value))
  {
    if a == [] {
      assert a + b == b;
    } else {
      var out := m[a[0]].run(input);
      assert (a + b)[1..] == a[1..] + b;
      WarningsAppend(m, a[1..], b, input.(text := out.value.text));
    }
  }

  // No warning of a leaf is lost, and none is added.
  lemma {:induction false} WarningsKept(m: Processors, d: Digests, tree: Tree, input: TextInput)
    requires Fits(m, tree) && Evaluate(m, d, tree, input).Some?
    ensures AreLeaves(m, LeavesOf(tree))
    ensures Evaluate(m, d, tree, input).value.warnings == WarningsOf(m, LeavesOf(tree), input)
    decreases tree
  {
    LeavesAreLeaves(m, tree);
    match tree
    case LeafNode(tag) => assert [tag][1..] == [];
    case ChainNode(_, children) => AllWarningsKept(m, d, children, input);
  }

  lemma {:induction false} AllWarningsKept(m: Processors, d: Digests, trees: seq<Tree>, input: TextInput)
    requires AllFit(m, trees) && ValidText(input.text) && EvaluateAll(m, d, trees, input).Some?
    ensures AreLeaves(m, LeavesOfAll(trees))
    ensures EvaluateAll(m, d, trees, input).value.warnings == WarningsOf(m, LeavesOfAll(trees), input)
    decreases trees
  {
    AllLeavesAreLeaves(m, trees);
    if trees != [] {
      var init, last := trees[..|trees| - 1], trees[|trees| - 1];
      AllLeavesAreLeaves(m, init);
      LeavesAreLeaves(m, last);
      var before := EvaluateAll(m, d, init, input).value;
      AllWarningsKept(m, d, init, input);
      EvaluateAllComposes(m, d, init, input);
      WarningsKept(m, d, last, input.(text := before.text));
      WarningsAppend(m, LeavesOfAll(init), LeavesOf(last), input);
    }
  }

  // ---- what cannot be processed ----

  // The chain under the first tag names the second.
  ghost predicate Link(m: Processors, a: string, b: string) {
    a in m && m[a].Chain? && exists k :: 0 <= k < |m[a].steps| && Trim(m[a].steps[k]) == b
  }

  // A way down the chains to a tag that is unknown or already under way.
  ghost predicate DeadEnd(m: Processors, stack: seq<string>, p: seq<string>) {
    p != [] && (forall i :: 0 <= i < |p| - 1 ==> Link(m, p[i], p[i + 1])) &&
    (p[|p| - 1] == "" || p[|p| - 1] !in m || p[|p| - 1] in stack + p[..|p| - 1])
  }

  lemma {:induction false} UnexpandedHasDeadEnd(m: Processors, tag: string, stack: seq<string>) returns (p: seq<string>)
    requires Expand(m, tag, stack).None?
    ensures DeadEnd(m, stack, p) && p[0] == Trim(tag)
    decreases Unused(m, stack), 0
  {
    var t := Trim(tag);
    p := [t];
    if t == "" || t !in m {
    } else if t in stack {
      assert stack + p[..|p| - 1] == stack;
    } else {
      assert t in Unused(m, stack) && t !in Unused(m, stack + [t]);
      var k, rest := UnexpandedStep(m, m[t].steps, stack + [t]);
      assert Link(m, t, rest[0]);
      p := [t] + rest;
      assert stack + p[..|p| - 1] == (stack + [t]) + rest[..|rest| - 1];
      forall i | 0 <= i < |p| - 1 ensures Link(m, p[i], p[i + 1]) {
        if i > 0 {
          assert Link(m, rest[i - 1], rest[i - 1 + 1]);
        }
      }
    }
  }

  lemma {:induction false} UnexpandedStep(m: Processors, tags: seq<string>, stack: seq<string>)
      returns (k: nat, p: seq<string>)
    requires ExpandAll(m, tags, stack).None?
    ensures k < |tags| && DeadEnd(m, stack, p) && p[0] == Trim(tags[k])
    decreases Unused(m, stack), 1, |tags|
  {
    k := |tags| - 1;
    if Expand(m, tags[k], stack).None? {
      p := UnexpandedHasDeadEnd(m, tags[k], stack);
    } else {
      k, p := UnexpandedStep(m, tags[..k], stack);
    }
  }

  lemma {:induction false} DeadEndUnexpanded(m: Processors, tag: string, stack: seq<string>, p: seq<string>)
    requires DeadEnd(m, stack, p) && p[0] == Trim(tag)
    ensures Expand(m, tag, stack).None?
    decreases |p|
  {
    var t := Trim(tag);
    if |p| == 1 {
      assert stack + p[..|p| - 1] == stack;
    } else if t != "" && t !in stack && t in m {
      assert Link(m, p[0], p[0 + 1]);
      var k :| 0 <= k < |m[t].steps| && Trim(m[t].steps[k]) == p[1];
      var rest := p[1..];
      forall i | 0 <= i < |rest| - 1 ensures Link(m, rest[i], rest[i + 1]) {
        assert Link(m, p[i + 1], p[i + 1 + 1]);
      }
      assert stack + p[..|p| - 1] == (stack + [t]) + rest[..|rest| - 1];
      DeadEndUnexpanded(m, m[t].steps[k], stack + [t], rest);
      StepUnexpanded(m, m[t].steps, stack + [t], k);
    }
  }

  lemma {:induction false} StepUnexpanded(m: Processors, tags: seq<string>, stack: seq<string>, k: nat)
    requires k < |tags| && Expand(m, tags[k], stack).None?
    ensures ExpandAll(m, tags, stack).None?
    decreases |tags|
  {
    if k < |tags| - 1 {
      StepUnexpanded(m, tags[..|tags| - 1], stack, k);
    }
  }

  // A tag unfolds, in any registry, exactly when no way down its chains meets an
  // unregistered tag or a tag again.
  lemma ExpandsExactly(m: Processors, tag: string)
    ensures Expand(m, tag, []).Some? <==> !exists p :: DeadEnd(m, [], p) && p[0] == Trim(tag)
  {
    if Expand(m, tag, []).None? {
      var p := UnexpandedHasDeadEnd(m, tag, []);
    }
    if p :| DeadEnd(m, [], p) && p[0] == Trim(tag) {
      DeadEndUnexpanded(m, tag, [], p);
    }
  }
}
