// The lane of worker/profile_mutation_lane.go as a step system of concurrent callers:
// one channel with one token per profile, created under the lane's mutex.
module Lanes {

  datatype Place = Idle | Waiting(profile: string) | Running(profile: string)

  // tokens holds the fill of each profile's channel, whose capacity is 1.
  datatype Lane = Lane(tokens: map<string, nat>, callers: map<nat, Place>)

  datatype Step =
    | Enter(caller: nat, profile: string)
    | Acquire(caller: nat)
    | Cancel(caller: nat)
    | Return(caller: nat)

  predicate At(l: Lane, caller: nat, place: Place) {
    caller in l.callers && l.callers[caller] == place
  }

  ghost predicate Next(l: Lane, l': Lane, s: Step) {
    s.caller in l.callers &&
    match s
    case Enter(c, p) =>
      l.callers[c].Idle? && p != "" &&
      l' == Lane(if p in l.tokens then l.tokens else l.tokens[p := 1], l.callers[c := Waiting(p)])
    case Acquire(c) =>
      l.callers[c].Waiting? &&
      var p := l.callers[c].profile;
      p in l.tokens && l.tokens[p] > 0 && l' == Lane(l.tokens[p := l.tokens[p] - 1], l.callers[c := Running(p)])
    case Cancel(c) => l.callers[c].Waiting? && l' == l.(callers := l.callers[c := Idle])
    // Sending blocks while the channel is full.
    case Return(c) =>
      l.callers[c].Running? &&
      var p := l.callers[c].profile;
      p in l.tokens && l.tokens[p] < 1 && l' == Lane(l.tokens[p := l.tokens[p] + 1], l.callers[c := Idle])
  }

  ghost predicate IsRun(lanes: seq<Lane>, steps: seq<Step>) {
    |lanes| == |steps| + 1 && forall i :: 0 <= i < |steps| ==> Next(lanes[i], lanes[i + 1], steps[i])
  }

  ghost predicate Exclusive(l: Lane) {
    forall a, b, p :: At(l, a, Running(p)) && At(l, b, Running(p)) ==> a == b
  }

  // A token is in its channel exactly when nobody runs on the profile.
  ghost predicate Conserved(l: Lane) {
    (forall p :: p in l.tokens ==> l.tokens[p] <= 1) &&
    (forall c, p :: At(l, c, Running(p)) ==> p in l.tokens && l.tokens[p] == 0) &&
    (forall c, p :: At(l, c, Waiting(p)) ==> p in l.tokens) &&
    (forall p :: p in l.tokens && l.tokens[p] == 0 ==> exists c :: At(l, c, Running(p)))
  }

  ghost predicate Start(l: Lane) {
    l.tokens == map[] && forall c :: c in l.callers ==> l.callers[c] == Idle
  }

  lemma LaneStep(l: Lane, l': Lane, s: Step)
    requires Next(l, l', s) && Exclusive(l) && Conserved(l)
    ensures Exclusive(l') && Conserved(l')
  {
    forall p | p in l'.tokens && l'.tokens[p] == 0 ensures exists c :: At(l', c, Running(p)) {
      if s.Acquire? && p == l.callers[s.caller].profile {
        assert At(l', s.caller, Running(p));
      } else {
        assert p in l.tokens && l.tokens[p] == 0;
        var c :| At(l, c, Running(p));
        assert s.Return? ==> At(l, s.caller, Running(l.callers[s.caller].profile));
        assert At(l', c, Running(p));
      }
    }
    forall c, p | At(l', c, Running(p)) ensures p in l'.tokens && l'.tokens[p] == 0 {
      assert At(l, c, Running(p)) || (s.Acquire? && c == s.caller && At(l, c, Waiting(p)));
      if s.Return? {
        assert At(l, s.caller, Running(l.callers[s.caller].profile));
      }
    }
    forall c, p | At(l', c, Waiting(p)) ensures p in l'.tokens {
      assert At(l, c, Waiting(p)) || (s.Enter? && c == s.caller);
    }
    forall a, b, p | At(l', a, Running(p)) && At(l', b, Running(p)) ensures a == b {
      assert At(l, a, Running(p)) || (s.Acquire? && a == s.caller);
      assert At(l, b, Running(p)) || (s.Acquire? && b == s.caller);
    }
  }

  // Main result: however callers interleave and give up waiting, at most one operation
  // runs per profile, and no token is lost or doubled.
  lemma {:induction false} LaneKept(lanes: seq<Lane>, steps: seq<Step>, i: nat)
    requires IsRun(lanes, steps) && Start(lanes[0]) && i < |lanes|
    ensures Exclusive(lanes[i]) && Conserved(lanes[i])
  {
    if i > 0 {
      LaneKept(lanes, steps, i - 1);
      LaneStep(lanes[i - 1], lanes[i], steps[i - 1]);
    }
  }

  // What that gives a caller: one that waits can go on exactly when nobody runs on its
  // profile, whatever other profiles do, and one that returns never blocks.
  lemma NobodyWaitsInVain(lanes: seq<Lane>, steps: seq<Step>, i: nat, c: nat, p: string)
    requires IsRun(lanes, steps) && Start(lanes[0]) && i < |lanes|
    ensures At(lanes[i], c, Waiting(p)) ==>
      ((exists l' :: Next(lanes[i], l', Acquire(c))) <==> !exists other :: At(lanes[i], other, Running(p)))
    ensures At(lanes[i], c, Running(p)) ==> exists l' :: Next(lanes[i], l', Return(c))
  {
    LaneKept(lanes, steps, i);
    var l := lanes[i];
    if At(l, c, Waiting(p)) && l.tokens[p] > 0 {
      assert Next(l, Lane(l.tokens[p := l.tokens[p] - 1], l.callers[c := Running(p)]), Acquire(c));
    }
    if At(l, c, Running(p)) {
      assert Next(l, Lane(l.tokens[p := l.tokens[p] + 1], l.callers[c := Idle]), Return(c));
    }
  }
}
