// The schedule reconciler of scheduler/scheduler.go, with any number of reconcilers at
// work and crashes between any two of their effects.
module Schedules {
  import opened Ordering
  import opened Wrappers

  const TWO_63 := 0x8000_0000_0000_0000
  const TWO_64 := 0x1_0000_0000_0000_0000

  datatype Slot = Slot(jobTag: string, triggerIndex: nat)

  // A scheduled job and its next occurrence. Times and durations are nanoseconds; an
  // interval of 0 stands for a cron expression.
  datatype Entry = Entry(
    slot: Slot, profileId: string, payload: string, interval: nat, jitterMin: int, jitterMax: int, next: nat)

  // The idempotency key is a digest of slot and occurrence.
  datatype Key = Key(slot: Slot, at: nat)

  datatype Task = Task(key: Key, profileId: string, payload: string, availableAt: int)

  // Cron evaluation, and the first eight bytes of a key's digest.
  datatype Env = Env(cron: (Entry, nat) -> nat, hash: Key -> nat)

  // ---- the jitter, in 64-bit arithmetic ----

  function ToUnsigned(x: int): nat {
    x % TWO_64
  }

  function ToSigned(x: int): int {
    var m := x % TWO_64;
    if m < TWO_63 then m else m - TWO_64
  }

  // Bounds a definition's validation lets through.
  predicate ValidBounds(minimum: int, maximum: int) {
    0 <= minimum <= maximum < TWO_63
  }

  function Span(minimum: int, maximum: int): nat {
    ToUnsigned(ToUnsigned(ToSigned(maximum - minimum)) + 1)
  }

  // deterministicJitter
  function Jitter(hash: nat, minimum: int, maximum: int): int
    requires ValidBounds(minimum, maximum)
  {
    if maximum <= minimum then minimum
    else
      SpanIsExact(minimum, maximum);
      ToSigned(minimum + ToSigned(hash % Span(minimum, maximum)))
  }

  // No sum wraps around: the jitter stays within its bounds, and reaches all of them.
  lemma JitterWithinBounds(hash: nat, minimum: int, maximum: int)
    requires ValidBounds(minimum, maximum)
    ensures minimum <= Jitter(hash, minimum, maximum) <= maximum
  {
    if minimum < maximum {
      SpanIsExact(minimum, maximum);
      Remainder(hash, Span(minimum, maximum));
      SmallIsItself(hash % Span(minimum, maximum));
      SmallIsItself(minimum + hash % Span(minimum, maximum));
    }
  }

  lemma JitterReachesAll(minimum: int, maximum: int, value: int) returns (hash: nat)
    requires ValidBounds(minimum, maximum) && minimum <= value <= maximum
    ensures hash < TWO_64 && Jitter(hash, minimum, maximum) == value
  {
    hash := value - minimum;
    if minimum < maximum {
      SpanIsExact(minimum, maximum);
      Remainder(hash, Span(minimum, maximum));
      SmallIsItself(hash);
      SmallIsItself(minimum + hash);
    }
  }

  lemma SpanIsExact(minimum: int, maximum: int)
    requires ValidBounds(minimum, maximum)
    ensures Span(minimum, maximum) == maximum - minimum + 1
  {
  }

  lemma SmallIsItself(x: nat)
    requires x < TWO_63
    ensures ToSigned(x) == x
  {
  }

  lemma Remainder(x: nat, n: nat)
    requires n > 0
    ensures 0 <= x % n < n
    ensures x < n ==> x % n == x
  {
  }

  // ---- steps ----

  // known holds every entry ever stored: a reconciler may still be working on any. looks
  // holds, per reconciler, the entry for which it last found no active task and has made
  // none yet. A task is kept as it was made; finished holds the keys of those that are
  // over, failed of those that may be restarted.
  datatype World = World(
    schedules: map<Slot, Entry>, tasks: seq<Task>, known: set<Entry>, looks: map<nat, Entry>,
    finished: set<Key>, failed: set<Key>)

  // Gate is an answer of the gate, which may hold a job back. Trigger is what resuming a job
  // does, for one profile or, with none named, for all.
  datatype Step =
    | Look(who: nat, entry: Entry)
    | Gate(who: nat, entry: Entry, allowed: bool)
    | Enqueue(who: nat)
    | Drop(who: nat)
    | Advance(entry: Entry, next: nat, now: nat)
    | Sync(schedules: map<Slot, Entry>, now: nat)
    | Trigger(jobTag: string, profileId: string, at: nat)
    | Finish(key: Key, failing: bool)
    | Dismiss(key: Key)
    | Restart(key: Key)

  function KeyOf(e: Entry): Key {
    Key(e.slot, e.next)
  }

  function TaskOf(env: Env, e: Entry): Task
    requires ValidBounds(e.jitterMin, e.jitterMax)
  {
    Task(KeyOf(e), e.profileId, e.payload, e.next + Jitter(env.hash(KeyOf(e)), e.jitterMin, e.jitterMax))
  }

  predicate HasKey(tasks: seq<Task>, key: Key) {
    exists i :: 0 <= i < |tasks| && tasks[i].key == key
  }

  function NextRun(env: Env, e: Entry, now: nat): nat {
    if e.interval > 0 then now + e.interval else env.cron(e, now)
  }

  // What the scheduler relies on: cron answers with a later time.
  ghost predicate CronMovesOn(env: Env) {
    forall e, now :: env.cron(e, now) > now
  }

  predicate IsActive(w: World, t: Task, jobTag: string, profileId: string) {
    t.key.slot.jobTag == jobTag && t.profileId == profileId && t.key !in w.finished
  }

  // HasActiveScheduledTask: some unfinished task of this job and profile.
  predicate HasActive(w: World, jobTag: string, profileId: string) {
    exists i :: 0 <= i < |w.tasks| && IsActive(w, w.tasks[i], jobTag, profileId)
  }

  function Looked(w: World, who: nat, e: Entry): World {
    w.(looks := if HasActive(w, e.slot.jobTag, e.profileId) then w.looks - {who} else w.looks[who := e])
  }

  function Enqueued(env: Env, w: World, e: Entry): World
    requires ValidBounds(e.jitterMin, e.jitterMax)
  {
    if HasKey(w.tasks, KeyOf(e)) then w else w.(tasks := w.tasks + [TaskOf(env, e)])
  }

  // Compare-and-swap on the occurrence.
  predicate Current(w: World, e: Entry) {
    e.slot in w.schedules && w.schedules[e.slot].next == e.next
  }

  function Advanced(w: World, e: Entry, next: nat): World {
    if Current(w, e) then
      var moved := w.schedules[e.slot].(next := next);
      w.(schedules := w.schedules[e.slot := moved], known := w.known + {moved})
    else w
  }

  predicate Names(jobTag: string, profileId: string, e: Entry) {
    e.slot.jobTag == jobTag && (profileId == "" || e.profileId == profileId)
  }

  // Every schedule of the job is due at once, whatever its occurrence was.
  function Triggered(w: World, jobTag: string, profileId: string, at: nat): World {
    var schedules := map slot | slot in w.schedules ::
      if Names(jobTag, profileId, w.schedules[slot]) then w.schedules[slot].(next := at) else w.schedules[slot];
    w.(schedules := schedules, known := w.known + schedules.Values)
  }

  ghost predicate Next(env: Env, w: World, w': World, s: Step) {
    match s
    case Look(who, e) => e in w.known && w' == Looked(w, who, e)
    case Gate(_, _, _) => w' == w
    case Enqueue(who) =>
      who in w.looks && ValidBounds(w.looks[who].jitterMin, w.looks[who].jitterMax) &&
      w' == Enqueued(env, w, w.looks[who]).(looks := w.looks - {who})
    case Drop(who) => w' == w.(looks := w.looks - {who})
    case Advance(e, next, now) => e in w.known && e.next <= now < next && w' == Advanced(w, e, next)
    case Sync(schedules, now) =>
      Configured(schedules) && Resynced(w, schedules, now) &&
      w' == w.(schedules := schedules, known := w.known + schedules.Values)
    case Trigger(jobTag, profileId, at) => w' == Triggered(w, jobTag, profileId, at)
    case Finish(key, failing) =>
      HasKey(w.tasks, key) && key !in w.finished &&
      w' == w.(finished := w.finished + {key}, failed := if failing then w.failed + {key} else w.failed)
    case Dismiss(key) => key in w.failed && w' == w.(failed := w.failed - {key})
    case Restart(key) =>
      key in w.failed && w' == w.(finished := w.finished - {key}, failed := w.failed - {key})
  }

  predicate Configured(schedules: map<Slot, Entry>) {
    forall slot :: slot in schedules ==>
      schedules[slot].slot == slot && ValidBounds(schedules[slot].jitterMin, schedules[slot].jitterMax)
  }

  // An unchanged definition keeps its occurrence, a changed one gets a later one.
  predicate Resynced(w: World, schedules: map<Slot, Entry>, now: nat) {
    forall slot :: slot in schedules ==>
      (slot in w.schedules && schedules[slot] == w.schedules[slot]) || schedules[slot].next > now
  }

  ghost predicate IsRun(env: Env, worlds: seq<World>, steps: seq<Step>) {
    |worlds| == |steps| + 1 && forall i :: 0 <= i < |steps| ==> Next(env, worlds[i], worlds[i + 1], steps[i])
  }

  // ---- what every run keeps ----

  ghost predicate OneTaskPerOccurrence(tasks: seq<Task>) {
    forall i, j :: 0 <= i < j < |tasks| ==> tasks[i].key != tasks[j].key
  }

  // The task stems from a stored entry, says what that says, and was made available within
  // its jitter.
  ghost predicate Justified(w: World, t: Task) {
    exists e ::
      e in w.known && e.slot == t.key.slot && e.next == t.key.at && t.profileId == e.profileId &&
      t.payload == e.payload && e.next + e.jitterMin <= t.availableAt <= e.next + e.jitterMax
  }

  ghost predicate KeptTasks(w: World) {
    OneTaskPerOccurrence(w.tasks) &&
    (forall i :: 0 <= i < |w.tasks| ==> Justified(w, w.tasks[i])) &&
    (forall key :: key in w.finished ==> HasKey(w.tasks, key)) && w.failed <= w.finished
  }

  ghost predicate KeptEntries(w: World) {
    (forall e :: e in w.known ==> ValidBounds(e.jitterMin, e.jitterMax)) &&
    (forall slot :: slot in w.schedules ==> w.schedules[slot].slot == slot && w.schedules[slot] in w.known) &&
    (forall who :: who in w.looks ==> w.looks[who] in w.known)
  }

  ghost predicate Kept(w: World) {
    KeptTasks(w) && KeptEntries(w)
  }

  // Nothing is taken back: entries stay known and tasks as they were made.
  lemma Grows(env: Env, w: World, w': World, s: Step)
    requires Next(env, w, w', s)
    ensures w.known <= w'.known && w.tasks <= w'.tasks
  {
  }

  lemma KeptTasksStep(env: Env, w: World, w': World, s: Step)
    requires Kept(w) && Next(env, w, w', s)
    ensures KeptTasks(w')
  {
    Grows(env, w, w', s);
    forall key | key in w'.finished ensures HasKey(w'.tasks, key) {
      assert key in w.finished || s == Finish(key, s.failing);
      HasKeyStays(w.tasks, w'.tasks, key);
    }
    forall i | 0 <= i < |w'.tasks| ensures Justified(w', w'.tasks[i]) {
      if i < |w.tasks| {
        assert Justified(w, w.tasks[i]);
      } else {
        var e := w.looks[s.who];
        JitterWithinBounds(env.hash(KeyOf(e)), e.jitterMin, e.jitterMax);
        assert e in w'.known && KeyOf(e) == w'.tasks[i].key;
      }
    }
  }

  lemma KeptEntriesStep(env: Env, w: World, w': World, s: Step)
    requires Kept(w) && Next(env, w, w', s)
    ensures KeptEntries(w')
  {
    if s.Sync? || s.Trigger? {
      forall slot | slot in w'.schedules ensures w'.schedules[slot] in w'.known && w'.schedules[slot].slot == slot {
        assert w'.schedules[slot] in w'.schedules.Values;
      }
      forall e | e in w'.known ensures ValidBounds(e.jitterMin, e.jitterMax) {
        if e !in w.known {
          var slot :| slot in w'.schedules && w'.schedules[slot] == e;
          assert s.Trigger? ==> w.schedules[slot] in w.known;
        }
      }
    }
  }

  // Main result: over every run of reconcilers, crashes, resumed jobs, restarted tasks and
  // configuration changes, an occurrence gets at most one task ever, made available within
  // the jitter of its entry.
  lemma {:induction false} KeptRun(env: Env, worlds: seq<World>, steps: seq<Step>, i: nat)
    requires IsRun(env, worlds, steps) && Kept(worlds[0]) && i < |worlds|
    ensures Kept(worlds[i])
  {
    hide Next, Kept;
    if i > 0 {
      KeptRun(env, worlds, steps, i - 1);
      KeptStep(env, worlds[i - 1], worlds[i], steps[i - 1]);
    }
  }

  lemma KeptStep(env: Env, w: World, w': World, s: Step)
    requires Kept(w) && Next(env, w, w', s)
    ensures Kept(w')
  {
    KeptTasksStep(env, w, w', s);
    KeptEntriesStep(env, w, w', s);
  }

  // Tasks stay, and those of an occurrence are never made again.
  lemma {:induction false} TasksStay(env: Env, worlds: seq<World>, steps: seq<Step>, i: nat, j: nat)
    requires IsRun(env, worlds, steps) && i <= j < |worlds|
    ensures worlds[i].tasks <= worlds[j].tasks
  {
    hide Next;
    if i < j {
      TasksStay(env, worlds, steps, i, j - 1);
      Grows(env, worlds[j - 1], worlds[j], steps[j - 1]);
    }
  }

  // ---- where occurrences move ----

  // Somebody resumes the entry's job.
  predicate Triggers(s: Step, e: Entry) {
    s.Trigger? && Names(s.jobTag, s.profileId, e)
  }

  // A move is made by a reconciler, at a due occurrence and past the time it is made at:
  // occurrences missed in between collapse into one. Or it is made by resuming the job, to
  // the time of doing so, and the schedule is due then.
  lemma EachMovePassesNow(env: Env, w: World, w': World, s: Step, slot: Slot)
    requires KeptEntries(w) && Next(env, w, w', s) && !s.Sync? && slot in w.schedules
    ensures slot in w'.schedules && w'.schedules[slot].(next := w.schedules[slot].next) == w.schedules[slot]
    ensures Triggers(s, w.schedules[slot]) ==> w'.schedules[slot].next == s.at
    ensures w'.schedules[slot].next != w.schedules[slot].next && !Triggers(s, w.schedules[slot]) ==>
      s.Advance? && s.entry.slot == slot && w.schedules[slot].next <= s.now < w'.schedules[slot].next
  {
  }

  // What a caller can check before it resumes a job.
  predicate NotEarlier(w: World, s: Step, slot: Slot) {
    slot in w.schedules && Triggers(s, w.schedules[slot]) ==> s.at >= w.schedules[slot].next
  }

  // Step k takes the schedule's occurrence back.
  ghost predicate BackAt(worlds: seq<World>, k: nat, slot: Slot)
    requires k + 1 < |worlds|
  {
    slot in worlds[k].schedules && slot in worlds[k + 1].schedules &&
    worlds[k + 1].schedules[slot].next < worlds[k].schedules[slot].next
  }

  ghost predicate NeverBack(worlds: seq<World>, i: nat, j: nat, slot: Slot)
    requires j < |worlds|
  {
    forall k: nat :: i <= k < j ==> !BackAt(worlds, k, slot)
  }

  // No resume in a part of a run comes earlier than the occurrence stored then.
  ghost predicate NoneEarlier(worlds: seq<World>, steps: seq<Step>, i: nat, j: nat, slot: Slot)
    requires j <= |steps| <= |worlds|
  {
    forall k: nat :: i <= k < j ==> NotEarlier(worlds[k], steps[k], slot)
  }

  lemma {:induction false} DefinitionStays(env: Env, worlds: seq<World>, steps: seq<Step>, i: nat, j: nat, slot: Slot)
    requires IsRun(env, worlds, steps) && Kept(worlds[0]) && i <= j < |worlds| && slot in worlds[i].schedules
    requires forall k :: i <= k < j ==> !steps[k].Sync?
    ensures slot in worlds[j].schedules
    ensures worlds[j].schedules[slot].(next := worlds[i].schedules[slot].next) == worlds[i].schedules[slot]
  {
    hide Next, KeptTasks, KeptEntries;
    if i < j {
      DefinitionStays(env, worlds, steps, i, j - 1, slot);
      KeptRun(env, worlds, steps, j - 1);
      EachMovePassesNow(env, worlds[j - 1], worlds[j], steps[j - 1], slot);
    }
  }

  // Main result: between configuration changes a schedule keeps its definition, and its
  // occurrence is never taken back exactly when no resume comes earlier than the
  // occurrence stored then.
  lemma {:induction false} OccurrencesMoveForwardExactly(env: Env, worlds: seq<World>, steps: seq<Step>,
      i: nat, j: nat, slot: Slot)
    requires IsRun(env, worlds, steps) && Kept(worlds[0]) && i <= j < |worlds| && slot in worlds[i].schedules
    requires forall k :: i <= k < j ==> !steps[k].Sync?
    ensures slot in worlds[j].schedules
    ensures NeverBack(worlds, i, j, slot) <==> NoneEarlier(worlds, steps, i, j, slot)
    ensures NeverBack(worlds, i, j, slot) ==> worlds[i].schedules[slot].next <= worlds[j].schedules[slot].next
  {
    hide Next, KeptTasks, KeptEntries, NotEarlier;
    DefinitionStays(env, worlds, steps, i, j, slot);
    if i < j {
      OccurrencesMoveForwardExactly(env, worlds, steps, i, j - 1, slot);
      KeptRun(env, worlds, steps, j - 1);
      BackExactly(env, worlds[j - 1], worlds[j], steps[j - 1], slot);
      assert BackAt(worlds, j - 1, slot) <==> !NotEarlier(worlds[j - 1], steps[j - 1], slot);
    }
  }

  lemma BackExactly(env: Env, w: World, w': World, s: Step, slot: Slot)
    requires KeptEntries(w) && Next(env, w, w', s) && !s.Sync? && slot in w.schedules
    ensures slot in w'.schedules
    ensures w'.schedules[slot].next < w.schedules[slot].next <==> !NotEarlier(w, s, slot)
  {
    EachMovePassesNow(env, w, w', s, slot);
  }

  // Resuming a job before its next occurrence takes it back.
  lemma ResumeGoesBack(env: Env, w: World, slot: Slot, at: nat) returns (worlds: seq<World>, steps: seq<Step>)
    requires slot in w.schedules && w.schedules[slot].slot == slot && at < w.schedules[slot].next
    ensures IsRun(env, worlds, steps) && worlds[0] == w && |steps| == 1 && !steps[0].Sync?
    ensures slot in worlds[1].schedules && worlds[1].schedules[slot].next == at < w.schedules[slot].next
  {
    var s := Trigger(slot.jobTag, w.schedules[slot].profileId, at);
    worlds := [w, Triggered(w, slot.jobTag, w.schedules[slot].profileId, at)];
    steps := [s];
    assert Next(env, worlds[0], worlds[1], steps[0]);
  }

  // ---- one active task at a time ----

  // No two unfinished tasks are of the same job and profile.
  ghost predicate OneActivePerJob(w: World) {
    forall i, j :: 0 <= i < j < |w.tasks| && w.tasks[i].key !in w.finished && w.tasks[j].key !in w.finished ==>
      w.tasks[i].key.slot.jobTag != w.tasks[j].key.slot.jobTag || w.tasks[i].profileId != w.tasks[j].profileId
  }

  // The occurrence has its task already, or no other task of its job is active.
  ghost predicate Unopposed(w: World, e: Entry) {
    HasKey(w.tasks, KeyOf(e)) || !HasActive(w, e.slot.jobTag, e.profileId)
  }

  // The task is of the entry's job and profile, and active.
  ghost predicate ForJob(w: World, i: nat, e: Entry) {
    i < |w.tasks| && IsActive(w, w.tasks[i], e.slot.jobTag, e.profileId)
  }

  // Another task of the job and profile of this one is active.
  ghost predicate AnotherActive(w: World, key: Key) {
    exists i, j :: 0 <= i < |w.tasks| && 0 <= j < |w.tasks| && i != j && w.tasks[i].key == key &&
      IsActive(w, w.tasks[j], w.tasks[i].key.slot.jobTag, w.tasks[i].profileId)
  }

  lemma EnqueueExactly(env: Env, w: World, e: Entry)
    requires KeptTasks(w) && OneActivePerJob(w) && ValidBounds(e.jitterMin, e.jitterMax)
    ensures OneActivePerJob(Enqueued(env, w, e)) <==> Unopposed(w, e)
  {
    var w' := Enqueued(env, w, e);
    if !HasKey(w.tasks, KeyOf(e)) {
      var n := |w.tasks|;
      assert w'.tasks[n] == TaskOf(env, e) && KeyOf(e) !in w.finished;
      assert forall i :: 0 <= i < n ==> w'.tasks[i] == w.tasks[i];
      if i :| 0 <= i < n && IsActive(w, w.tasks[i], e.slot.jobTag, e.profileId) {
        assert IsActive(w', w'.tasks[n], w'.tasks[i].key.slot.jobTag, w'.tasks[i].profileId);
      }
    }
  }

  // A pair active after a restart was active before it, but for the restarted one.
  lemma PairKept(w: World, w': World, key: Key, i: nat, j: nat)
    requires OneActivePerJob(w) && !AnotherActive(w, key)
    requires w' == w.(finished := w.finished - {key}, failed := w.failed - {key})
    requires i < j < |w.tasks| && w.tasks[i].key != w.tasks[j].key && w.tasks[i].key !in w'.finished
    ensures !IsActive(w', w.tasks[j], w.tasks[i].key.slot.jobTag, w.tasks[i].profileId)
  {
    var tag, profile := w.tasks[i].key.slot.jobTag, w.tasks[i].profileId;
    if w.tasks[i].key == key {
      assert !IsActive(w, w.tasks[j], tag, profile);
    } else if w.tasks[j].key == key {
      assert !IsActive(w, w.tasks[i], w.tasks[j].key.slot.jobTag, w.tasks[j].profileId);
    }
  }

  lemma PairBroken(w: World, w': World, key: Key, i: nat, j: nat)
    requires w' == w.(finished := w.finished - {key}, failed := w.failed - {key})
    requires i < |w.tasks| && j < |w.tasks| && i != j && w.tasks[i].key == key
    requires IsActive(w, w.tasks[j], w.tasks[i].key.slot.jobTag, w.tasks[i].profileId)
    ensures !OneActivePerJob(w')
  {
    assert IsActive(w', w.tasks[j], w.tasks[i].key.slot.jobTag, w.tasks[i].profileId);
    assert IsActive(w', w.tasks[i], w.tasks[j].key.slot.jobTag, w.tasks[j].profileId);
  }

  lemma RestartExactly(w: World, w': World, key: Key)
    requires KeptTasks(w) && OneActivePerJob(w)
    requires w' == w.(finished := w.finished - {key}, failed := w.failed - {key})
    ensures OneActivePerJob(w') <==> !AnotherActive(w, key)
  {
    if AnotherActive(w, key) {
      var i: nat, j: nat :| i < |w.tasks| && j < |w.tasks| && i != j && w.tasks[i].key == key &&
        IsActive(w, w.tasks[j], w.tasks[i].key.slot.jobTag, w.tasks[i].profileId);
      PairBroken(w, w', key, i, j);
    } else {
      forall i: nat, j: nat | i < j < |w.tasks| && w.tasks[i].key !in w'.finished
        ensures !IsActive(w', w.tasks[j], w.tasks[i].key.slot.jobTag, w.tasks[i].profileId)
      {
        PairKept(w, w', key, i, j);
      }
    }
  }

  lemma OneActiveStep(env: Env, w: World, w': World, s: Step)
    requires KeptTasks(w) && OneActivePerJob(w) && Next(env, w, w', s)
    ensures OneActivePerJob(w') <==>
      (s.Enqueue? ==> Unopposed(w, w.looks[s.who])) && (s.Restart? ==> !AnotherActive(w, s.key))
  {
    match s
    case Enqueue(who) =>
      EnqueueExactly(env, w, w.looks[who]);
      SameTasksSameActive(Enqueued(env, w, w.looks[who]), w');
    case Restart(key) => RestartExactly(w, w', key);
    case Finish(key, _) =>
      assert forall i :: 0 <= i < |w.tasks| && w.tasks[i].key !in w'.finished ==> w.tasks[i].key !in w.finished;
    case _ => SameTasksSameActive(w, w');
  }

  lemma SameTasksSameActive(w: World, w': World)
    requires w'.tasks == w.tasks && w'.finished == w.finished
    ensures OneActivePerJob(w') <==> OneActivePerJob(w)
    ensures forall i, e :: ForJob(w', i, e) <==> ForJob(w, i, e)
  {
    assert forall t, tag, profile :: IsActive(w', t, tag, profile) <==> IsActive(w, t, tag, profile);
  }

  // A step by which this reconciler looks, makes a task, or gives up.
  predicate ActsFor(s: Step, who: nat) {
    (s.Look? || s.Enqueue? || s.Drop?) && s.who == who
  }

  // The look of a reconciler that was its last act before step k.
  ghost predicate OwnLook(steps: seq<Step>, l: nat, k: nat, who: nat)
    requires k <= |steps|
  {
    l < k && steps[l].Look? && steps[l].who == who && forall j :: l < j < k ==> !ActsFor(steps[j], who)
  }

  ghost predicate Awake(w: World, i: nat) {
    i < |w.tasks| && w.tasks[i].key !in w.finished
  }

  // A task becomes active at step j: it is made, or restarted.
  ghost predicate Wakes(worlds: seq<World>, j: nat, i: nat)
    requires j + 1 < |worlds|
  {
    !Awake(worlds[j], i) && Awake(worlds[j + 1], i)
  }

  // Since the reconciler's own look a task of the entry's job has become active and still is.
  ghost predicate WokenSince(worlds: seq<World>, steps: seq<Step>, k: nat, who: nat, e: Entry)
    requires |worlds| == |steps| + 1 && k <= |steps|
  {
    exists l: nat, j: nat, i: nat ::
      OwnLook(steps, l, k, who) && l < j < k && Wakes(worlds, j, i) && ForJob(worlds[k], i, e)
  }

  // Step k makes a task although another of its job woke since the look for it, or
  // restarts one while another of its job is active.
  ghost predicate Collides(worlds: seq<World>, steps: seq<Step>, k: nat)
    requires |worlds| == |steps| + 1 && k < |steps|
  {
    var w := worlds[k];
    match steps[k]
    case Enqueue(who) =>
      who in w.looks && !HasKey(w.tasks, KeyOf(w.looks[who])) && WokenSince(worlds, steps, k, who, w.looks[who])
    case Restart(key) => AnotherActive(w, key)
    case _ => false
  }

  lemma LookStep(env: Env, w: World, w': World, s: Step, who: nat)
    requires Next(env, w, w', s) && who in w'.looks
    ensures ActsFor(s, who) ==> s == Look(who, w'.looks[who]) && !HasActive(w, s.entry.slot.jobTag, s.entry.profileId)
    ensures !ActsFor(s, who) ==> who in w.looks && w.looks[who] == w'.looks[who]
  {
  }

  // Whoever may make a task has looked for active ones and found none.
  lemma {:induction false} LookMade(env: Env, worlds: seq<World>, steps: seq<Step>, k: nat, who: nat) returns (l: nat)
    requires IsRun(env, worlds, steps) && worlds[0].looks == map[] && k < |worlds| && who in worlds[k].looks
    ensures OwnLook(steps, l, k, who) && steps[l] == Look(who, worlds[k].looks[who])
    ensures !HasActive(worlds[l], steps[l].entry.slot.jobTag, steps[l].entry.profileId)
  {
    hide Next, HasActive;
    assert k > 0;
    LookStep(env, worlds[k - 1], worlds[k], steps[k - 1], who);
    if ActsFor(steps[k - 1], who) {
      l := k - 1;
    } else {
      l := LookMade(env, worlds, steps, k - 1, who);
    }
  }

  lemma WakeStep(env: Env, w: World, w': World, s: Step, i: nat, e: Entry)
    requires Next(env, w, w', s)
    ensures ForJob(w', i, e) ==> ForJob(w, i, e) || (!Awake(w, i) && Awake(w', i))
    ensures !Awake(w, i) && Awake(w', i) ==> s.Enqueue? || s.Restart?
  {
    Grows(env, w, w', s);
  }

  lemma {:induction false} WokeBetween(env: Env, worlds: seq<World>, steps: seq<Step>, l: nat, k: nat, i: nat, e: Entry)
      returns (j: nat)
    requires IsRun(env, worlds, steps) && l <= k < |worlds|
    requires !ForJob(worlds[l], i, e) && ForJob(worlds[k], i, e)
    ensures l <= j < k && Wakes(worlds, j, i)
  {
    hide Next, ForJob, Awake;
    WakeStep(env, worlds[k - 1], worlds[k], steps[k - 1], i, e);
    if ForJob(worlds[k - 1], i, e) {
      j := WokeBetween(env, worlds, steps, l, k - 1, i, e);
    } else {
      j := k - 1;
    }
  }

  // Another task of the job is active when one is made exactly if it woke since the look.
  lemma ActiveIfWoken(env: Env, worlds: seq<World>, steps: seq<Step>, k: nat, who: nat)
    requires IsRun(env, worlds, steps) && worlds[0].looks == map[] && k < |worlds| && who in worlds[k].looks
    ensures var e := worlds[k].looks[who];
      HasActive(worlds[k], e.slot.jobTag, e.profileId) <==> WokenSince(worlds, steps, k, who, e)
  {
    var e := worlds[k].looks[who];
    if HasActive(worlds[k], e.slot.jobTag, e.profileId) {
      var l := LookMade(env, worlds, steps, k, who);
      var i: nat :| i < |worlds[k].tasks| && IsActive(worlds[k], worlds[k].tasks[i], e.slot.jobTag, e.profileId);
      assert !ForJob(worlds[l], i, e) && ForJob(worlds[k], i, e);
      hide Next;
      var j := WokeBetween(env, worlds, steps, l, k, i, e);
      if j == l {
        WakeStep(env, worlds[l], worlds[l + 1], steps[l], i, e);
      }
      assert OwnLook(steps, l, k, who) && Wakes(worlds, j, i) && ForJob(worlds[k], i, e);
    }
  }

  ghost predicate NoneCollides(worlds: seq<World>, steps: seq<Step>, n: nat)
    requires |worlds| == |steps| + 1 && n <= |steps|
  {
    forall k :: 0 <= k < n ==> !Collides(worlds, steps, k)
  }

  lemma CollidesExactly(env: Env, worlds: seq<World>, steps: seq<Step>, k: nat)
    requires IsRun(env, worlds, steps) && worlds[0].looks == map[] && k < |steps|
    requires KeptTasks(worlds[k]) && OneActivePerJob(worlds[k])
    ensures OneActivePerJob(worlds[k + 1]) <==> !Collides(worlds, steps, k)
  {
    OneActiveStep(env, worlds[k], worlds[k + 1], steps[k]);
    assert Next(env, worlds[k], worlds[k + 1], steps[k]);
    hide KeptTasks, OneActivePerJob, WokenSince, HasActive, AnotherActive;
    if steps[k].Enqueue? {
      ActiveIfWoken(env, worlds, steps, k, steps[k].who);
    }
  }

  lemma {:induction false} OneActiveRun(env: Env, worlds: seq<World>, steps: seq<Step>, n: nat)
    requires IsRun(env, worlds, steps) && Kept(worlds[0]) && worlds[0].looks == map[] && OneActivePerJob(worlds[0])
    requires n <= |steps|
    ensures (forall i :: 0 <= i <= n ==> OneActivePerJob(worlds[i])) <==> NoneCollides(worlds, steps, n)
  {
    hide Next, KeptTasks, KeptEntries, OneActivePerJob, Collides;
    if n > 0 {
      OneActiveRun(env, worlds, steps, n - 1);
      KeptRun(env, worlds, steps, n - 1);
      if NoneCollides(worlds, steps, n - 1) {
        CollidesExactly(env, worlds, steps, n - 1);
      }
    }
  }

  // Main result: over every run of reconcilers that look before they make a task, a job
  // never has two active tasks for a profile exactly when no task is restarted while
  // another of its job is active, and none is made although another of its job became
  // active since the look for it.
  lemma OneActiveExactly(env: Env, worlds: seq<World>, steps: seq<Step>)
    requires IsRun(env, worlds, steps) && Kept(worlds[0]) && worlds[0].looks == map[] && OneActivePerJob(worlds[0])
    ensures (forall i :: 0 <= i < |worlds| ==> OneActivePerJob(worlds[i])) <==> NoneCollides(worlds, steps, |steps|)
  {
    hide OneActivePerJob, Collides;
    OneActiveRun(env, worlds, steps, |steps|);
  }

  // One reconciler alone, and nobody restarting tasks, always keeps it.
  lemma OneReconcilerKeepsIt(env: Env, worlds: seq<World>, steps: seq<Step>, who: nat, i: nat)
    requires IsRun(env, worlds, steps) && Kept(worlds[0]) && worlds[0].looks == map[] && OneActivePerJob(worlds[0])
    requires forall k :: 0 <= k < |steps| ==> !steps[k].Restart? && (steps[k].Enqueue? ==> steps[k].who == who)
    requires i < |worlds|
    ensures OneActivePerJob(worlds[i])
  {
    hide OneActivePerJob, Kept;
    forall k | 0 <= k < |steps| ensures !Collides(worlds, steps, k) {
      if Collides(worlds, steps, k) {
        var e := worlds[k].looks[who];
        var l: nat, j: nat, n: nat :|
          OwnLook(steps, l, k, who) && l < j < k && Wakes(worlds, j, n) && ForJob(worlds[k], n, e);
        WakeStep(env, worlds[j], worlds[j + 1], steps[j], n, e);
      }
    }
    OneActiveExactly(env, worlds, steps);
  }

  // Two occurrences of one job and profile without tasks, none of whose tasks is active.
  ghost predicate TwoReady(w: World, a: Entry, b: Entry) {
    Kept(w) && a in w.known && b in w.known && KeyOf(a) != KeyOf(b) &&
    a.slot.jobTag == b.slot.jobTag && a.profileId == b.profileId &&
    !HasKey(w.tasks, KeyOf(a)) && !HasKey(w.tasks, KeyOf(b)) && !HasActive(w, a.slot.jobTag, a.profileId)
  }

  lemma TwoMade(env: Env, w: World, a: Entry, b: Entry)
    requires TwoReady(w, a, b)
    ensures ValidBounds(a.jitterMin, a.jitterMax) && ValidBounds(b.jitterMin, b.jitterMax)
    ensures !HasKey(w.tasks + [TaskOf(env, a)], KeyOf(b))
    ensures KeyOf(a) !in w.finished && KeyOf(b) !in w.finished
    ensures HasKey(w.tasks + [TaskOf(env, a)], KeyOf(a))
  {
    assert (w.tasks + [TaskOf(env, a)])[|w.tasks|] == TaskOf(env, a);
  }

  lemma BothActive(env: Env, w: World, a: Entry, b: Entry, w': World)
    requires TwoReady(w, a, b) && ValidBounds(a.jitterMin, a.jitterMax) && ValidBounds(b.jitterMin, b.jitterMax)
    requires w'.tasks == w.tasks + [TaskOf(env, a)] + [TaskOf(env, b)]
    requires KeyOf(a) !in w'.finished && KeyOf(b) !in w'.finished
    ensures !OneActivePerJob(w')
  {
    var n := |w.tasks|;
    assert w'.tasks[n] == TaskOf(env, a) && w'.tasks[n + 1] == TaskOf(env, b);
    assert IsActive(w', w'.tasks[n + 1], w'.tasks[n].key.slot.jobTag, w'.tasks[n].profileId);
  }

  // Two reconcilers can both look and find nothing before either makes its task.
  lemma TwoReconcilersCollide(env: Env, w: World, a: Entry, b: Entry) returns (worlds: seq<World>, steps: seq<Step>)
    requires TwoReady(w, a, b)
    ensures IsRun(env, worlds, steps) && worlds[0] == w && steps == [Look(0, a), Look(1, b), Enqueue(0), Enqueue(1)]
    ensures !OneActivePerJob(worlds[4])
  {
    TwoMade(env, w, a, b);
    var w1 := w.(looks := w.looks[0 := a]);
    var w2 := w1.(looks := w1.looks[1 := b]);
    var w3 := w2.(tasks := w.tasks + [TaskOf(env, a)], looks := w2.looks - {0});
    var w4 := w3.(tasks := w.tasks + [TaskOf(env, a)] + [TaskOf(env, b)], looks := w3.looks - {1});
    assert Next(env, w, w1, Look(0, a));
    assert !HasActive(w1, b.slot.jobTag, b.profileId);
    assert Next(env, w1, w2, Look(1, b));
    assert Next(env, w2, w3, Enqueue(0));
    assert Next(env, w3, w4, Enqueue(1));
    BothActive(env, w, a, b, w4);
    hide Next, OneActivePerJob, TwoReady;
    worlds, steps := [w, w1, w2, w3, w4], [Look(0, a), Look(1, b), Enqueue(0), Enqueue(1)];
  }

  // One reconciler suffices if a failed task is restarted after the next was made.
  lemma RestartCollides(env: Env, w: World, a: Entry, b: Entry) returns (worlds: seq<World>, steps: seq<Step>)
    requires TwoReady(w, a, b)
    ensures IsRun(env, worlds, steps) && worlds[0] == w
    ensures steps == [Look(0, a), Enqueue(0), Finish(KeyOf(a), true), Look(0, b), Enqueue(0), Restart(KeyOf(a))]
    ensures !OneActivePerJob(worlds[6])
  {
    TwoMade(env, w, a, b);
    var key := KeyOf(a);
    var w1 := w.(looks := w.looks[0 := a]);
    var w2 := w1.(tasks := w.tasks + [TaskOf(env, a)], looks := w1.looks - {0});
    var w3 := w2.(finished := w.finished + {key}, failed := w.failed + {key});
    var w4 := w3.(looks := w3.looks[0 := b]);
    var w5 := w4.(tasks := w.tasks + [TaskOf(env, a)] + [TaskOf(env, b)], looks := w4.looks - {0});
    var w6 := w5.(finished := w5.finished - {key}, failed := w5.failed - {key});
    NothingActive(env, w, a, w3);
    assert Next(env, w, w1, Look(0, a));
    assert Next(env, w1, w2, Enqueue(0));
    assert Next(env, w2, w3, Finish(key, true));
    assert Next(env, w3, w4, Look(0, b));
    assert Next(env, w4, w5, Enqueue(0));
    assert Next(env, w5, w6, Restart(key));
    BothActive(env, w, a, b, w6);
    hide Next, OneActivePerJob, TwoReady;
    worlds := [w, w1, w2, w3, w4, w5, w6];
    steps := [Look(0, a), Enqueue(0), Finish(key, true), Look(0, b), Enqueue(0), Restart(key)];
  }

  lemma NothingActive(env: Env, w: World, a: Entry, w': World)
    requires !HasActive(w, a.slot.jobTag, a.profileId) && ValidBounds(a.jitterMin, a.jitterMax)
    requires w'.tasks == w.tasks + [TaskOf(env, a)] && w.finished <= w'.finished && KeyOf(a) in w'.finished
    ensures !HasActive(w', a.slot.jobTag, a.profileId)
  {
    forall i | 0 <= i < |w'.tasks| ensures !IsActive(w', w'.tasks[i], a.slot.jobTag, a.profileId) {
      if i < |w.tasks| {
        assert !IsActive(w, w.tasks[i], a.slot.jobTag, a.profileId);
      }
    }
  }

  // ---- the order of due entries ----

  predicate Earlier(a: Entry, b: Entry) {
    a.next < b.next ||
    (a.next == b.next &&
     (Less(a.slot.jobTag, b.slot.jobTag) ||
      (a.slot.jobTag == b.slot.jobTag && a.slot.triggerIndex < b.slot.triggerIndex)))
  }

  ghost predicate AllEarlier(entries: seq<Entry>, e: Entry) {
    forall i :: 0 <= i < |entries| ==> Earlier(entries[i], e)
  }

  predicate IsEarliest(schedules: map<Slot, Entry>, slots: set<Slot>, slot: Slot)
    requires slots <= schedules.Keys && slot in schedules
  {
    forall other :: other in slots && other != slot ==> Earlier(schedules[slot], schedules[other])
  }

  lemma EarlierIsOrder(a: Entry, b: Entry, c: Entry)
    ensures a.slot != b.slot ==> Earlier(a, b) || Earlier(b, a)
    ensures Earlier(a, b) && Earlier(b, c) ==> Earlier(a, c)
  {
    LessTotal(a.slot.jobTag, b.slot.jobTag);
    if Less(a.slot.jobTag, b.slot.jobTag) && Less(b.slot.jobTag, c.slot.jobTag) {
      LessTransitive(a.slot.jobTag, b.slot.jobTag, c.slot.jobTag);
    }
  }

  lemma {:induction false} EarliestExists(schedules: map<Slot, Entry>, slots: set<Slot>)
    requires slots != {} && slots <= schedules.Keys && forall slot :: slot in slots ==> schedules[slot].slot == slot
    ensures exists slot :: slot in slots && IsEarliest(schedules, slots, slot)
    decreases slots
  {
    var one :| one in slots;
    if slots == {one} {
      assert IsEarliest(schedules, slots, one);
    } else {
      EarliestExists(schedules, slots - {one});
      var least :| least in slots - {one} && IsEarliest(schedules, slots - {one}, least);
      EarlierIsOrder(schedules[one], schedules[least], schedules[least]);
      var first := if Earlier(schedules[one], schedules[least]) then one else least;
      forall other | other in slots && other != first ensures Earlier(schedules[first], schedules[other]) {
        if first == one && other != least {
          EarlierIsOrder(schedules[one], schedules[least], schedules[other]);
        }
      }
      assert IsEarliest(schedules, slots, first);
    }
  }

  ghost predicate InOrder(entries: seq<Entry>) {
    forall i, j :: 0 <= i < j < |entries| ==> Earlier(entries[i], entries[j])
  }

  ghost predicate AllBefore(entries: seq<Entry>, schedules: map<Slot, Entry>, slots: set<Slot>)
    requires slots <= schedules.Keys
  {
    forall slot :: slot in slots ==> AllEarlier(entries, schedules[slot])
  }

  lemma NothingListed(schedules: map<Slot, Entry>, slots: set<Slot>)
    requires slots <= schedules.Keys
    ensures InOrder([]) && AllBefore([], schedules, slots)
  {
  }

  // The earliest of the slots left comes next in the order.
  lemma EarliestComesNext(entries: seq<Entry>, schedules: map<Slot, Entry>, slots: set<Slot>, slot: Slot)
    requires slots <= schedules.Keys && slot in slots && IsEarliest(schedules, slots, slot)
    requires InOrder(entries) && AllBefore(entries, schedules, slots)
    ensures InOrder(entries + [schedules[slot]]) && AllBefore(entries + [schedules[slot]], schedules, slots - {slot})
  {
    assert AllEarlier(entries, schedules[slot]);
    forall other | other in slots - {slot} ensures AllEarlier(entries + [schedules[slot]], schedules[other]) {
      assert AllEarlier(entries, schedules[other]);
    }
  }

  // ---- one reconciler ----

  // Neither a configuration change nor a resume of the entry's job is among the steps.
  ghost predicate Undisturbed(taken: seq<Step>, e: Entry) {
    forall k :: 0 <= k < |taken| ==> !taken[k].Sync? && !Triggers(taken[k], e)
  }

  // The entry's schedule has its definition and an occurrence at least as late.
  ghost predicate Holds(w: World, e: Entry, next: nat) {
    e.slot in w.schedules && w.schedules[e.slot].profileId == e.profileId && w.schedules[e.slot].next >= next
  }

  // What a sequence of steps keeps: entries, tasks and, for a schedule left undisturbed, an
  // occurrence that does not go back.
  ghost predicate Onward(w: World, w': World, taken: seq<Step>) {
    w.known <= w'.known && w.tasks <= w'.tasks &&
    forall e, next :: Holds(w, e, next) && Undisturbed(taken, e) ==> Holds(w', e, next)
  }

  lemma OnwardStep(env: Env, w: World, w': World, s: Step)
    requires KeptEntries(w) && Next(env, w, w', s)
    ensures Onward(w, w', [s])
  {
    Grows(env, w, w', s);
    forall e, next | Holds(w, e, next) && Undisturbed([s], e) ensures Holds(w', e, next) {
      assert !([s][0].Sync?) && !Triggers([s][0], e);
      EachMovePassesNow(env, w, w', s, e.slot);
    }
  }

  lemma OnwardTransitive(a: World, b: World, c: World, first: seq<Step>, second: seq<Step>)
    requires Onward(a, b, first) && Onward(b, c, second)
    ensures Onward(a, c, first + second)
  {
    forall e, next | Holds(a, e, next) && Undisturbed(first + second, e) ensures Holds(c, e, next) {
      UndisturbedParts(first, second, e);
      assert Holds(b, e, next);
    }
  }

  lemma UndisturbedParts(first: seq<Step>, second: seq<Step>, e: Entry)
    requires Undisturbed(first + second, e)
    ensures Undisturbed(first, e) && Undisturbed(second, e)
  {
    var all := first + second;
    forall k | 0 <= k < |first| ensures !first[k].Sync? && !Triggers(first[k], e) {
      assert all[k] == first[k];
    }
    forall k | 0 <= k < |second| ensures !second[k].Sync? && !Triggers(second[k], e) {
      assert all[|first| + k] == second[k];
    }
  }

  // The history has grown by steps that lead on.
  ghost predicate Went(before: seq<Step>, w: World, steps: seq<Step>, w': World) {
    before <= steps && Onward(w, w', steps[|before|..])
  }

  lemma WentNowhere(steps: seq<Step>, w: World)
    ensures Went(steps, w, steps, w)
  {
    assert steps[|steps|..] == [];
  }

  // Left undisturbed since it was read, the entry's schedule is at least that far.
  ghost predicate Past(w: World, e: Entry, taken: seq<Step>, next: nat) {
    Undisturbed(taken, e) ==> Holds(w, e, next)
  }

  lemma PastStays(w: World, w': World, e: Entry, read: seq<Step>, s: seq<Step>, s': seq<Step>, next: nat)
    requires read <= s && Past(w, e, s[|read|..], next) && Went(s, w, s', w')
    ensures read <= s' && Past(w', e, s'[|read|..], next)
  {
    hide Holds;
    assert s'[|read|..] == s[|read|..] + s'[|s|..];
    if Undisturbed(s'[|read|..], e) {
      UndisturbedParts(s[|read|..], s'[|s|..], e);
    }
  }

  lemma MovedOn(w: World, e: Entry, next: nat)
    requires next > e.next
    ensures Holds(w, e, e.next) ==> Holds(Advanced(w, e, next), e, e.next + 1)
    ensures Holds(w, e, e.next) && Current(w, e) ==> Holds(Advanced(w, e, next), e, next)
  {
  }

  lemma WentOn(s0: seq<Step>, w0: World, s1: seq<Step>, w1: World, s2: seq<Step>, w2: World)
    requires Went(s0, w0, s1, w1) && Went(s1, w1, s2, w2)
    ensures Went(s0, w0, s2, w2)
  {
    hide Onward;
    assert s2[|s0|..] == s1[|s0|..] + s2[|s1|..];
    OnwardTransitive(w0, w1, w2, s1[|s0|..], s2[|s1|..]);
  }

  // Where in the history a pass looked for an active task, asked the gate, and moved the
  // schedule on.
  datatype Visit = Visit(looked: nat, asked: nat, moved: nat)

  // A reconciler's history, as far as it has come.
  datatype History = History(env: Env, who: nat, worlds: seq<World>, steps: seq<Step>)

  ghost predicate Extends(h: History, h': History) {
    h'.env == h.env && h'.who == h.who && h.worlds <= h'.worlds && h.steps <= h'.steps
  }

  // Since then this reconciler has made no task.
  ghost predicate Idle(h: History, since: nat) {
    forall k :: since <= k < |h.steps| ==> h.steps[k] != Enqueue(h.who)
  }

  // Since then it has made tasks of these entries only.
  ghost predicate MadeOnly(h: History, since: nat, entries: set<Entry>) {
    forall k :: since <= k < |h.steps| && k < |h.worlds| && h.steps[k] == Enqueue(h.who) ==>
      h.who in h.worlds[k].looks && h.worlds[k].looks[h.who] in entries
  }

  // In the history since then, this reconciler has looked for active tasks of the entry's
  // job.
  ghost predicate LookedAt(h: History, since: nat, looked: nat, e: Entry) {
    since <= looked < |h.steps| && looked < |h.worlds| && h.steps[looked] == Look(h.who, e)
  }

  // And it found one.
  ghost predicate FoundActive(h: History, looked: nat, e: Entry) {
    looked < |h.worlds| && HasActive(h.worlds[looked], e.slot.jobTag, e.profileId)
  }

  // It found none, and asked the gate.
  ghost predicate AskedAt(h: History, looked: nat, asked: nat, e: Entry) {
    looked < asked < |h.steps| && h.steps[asked].Gate? && h.steps[asked].who == h.who && h.steps[asked].entry == e
  }

  // It looked for active tasks, found none, and the gate let the job through.
  ghost predicate LetThrough(h: History, since: nat, v: Visit, e: Entry) {
    LookedAt(h, since, v.looked, e) && !FoundActive(h, v.looked, e) && AskedAt(h, v.looked, v.asked, e) &&
    h.steps[v.asked].allowed
  }

  // It looked, and unless it found an active task it asked the gate.
  ghost predicate Visited(h: History, since: nat, v: Visit, e: Entry) {
    LookedAt(h, since, v.looked, e) && (!FoundActive(h, v.looked, e) ==> AskedAt(h, v.looked, v.asked, e))
  }

  // The entry's schedule was asked to move at that point, and did exactly if it still stood
  // where the entry had it.
  ghost predicate AdvancedAt(h: History, since: nat, at: nat, e: Entry, now: nat, changed: bool) {
    since <= at < |h.steps| && at < |h.worlds| &&
    h.steps[at] == Advance(e, if e.interval > 0 then now + e.interval else h.env.cron(e, now), now) &&
    (changed <==> e.slot in h.worlds[at].schedules && h.worlds[at].schedules[e.slot].next == e.next)
  }

  predicate Paused(e: Entry, paused: set<(string, string)>) {
    (e.slot.jobTag, e.profileId) in paused
  }

  ghost function Unpaused(due: seq<Entry>, paused: set<(string, string)>): set<Entry> {
    set e | e in due && !Paused(e, paused)
  }

  ghost predicate MadeFor(h: History, w: World, since: nat, e: Entry, v: Visit) {
    Visited(h, since, v, e) && (LetThrough(h, since, v, e) ==> HasKey(w.tasks, KeyOf(e)))
  }

  // Of the entries that are not paused, each was looked at, and has its task if no task of
  // its job was active and the gate let it through.
  ghost predicate AllMade(h: History, w: World, since: nat, due: seq<Entry>, paused: set<(string, string)>,
      visits: seq<Visit>) {
    |visits| <= |due| &&
    forall i :: 0 <= i < |visits| && !Paused(due[i], paused) ==> MadeFor(h, w, since, due[i], visits[i])
  }

  // Each was asked to move, and advanced counts those that did.
  ghost predicate AllMoved(h: History, since: nat, due: seq<Entry>, now: nat, visits: seq<Visit>, moved: set<nat>) {
    |visits| <= |due| && (forall i :: i in moved ==> i < |visits|) &&
    forall i :: 0 <= i < |visits| ==> AdvancedAt(h, since, visits[i].moved, due[i], now, i in moved)
  }

  // The entries that were to get a task: not paused, no task of the job active, and let
  // through by the gate.
  ghost function Admitted(h: History, since: nat, due: seq<Entry>, paused: set<(string, string)>,
      visits: seq<Visit>): set<Entry>
    requires |visits| <= |due|
  {
    set i | 0 <= i < |visits| && !Paused(due[i], paused) && LetThrough(h, since, visits[i], due[i]) :: due[i]
  }

  lemma AdmittedNext(h: History, since: nat, due: seq<Entry>, paused: set<(string, string)>, visits: seq<Visit>,
      v: Visit)
    requires |visits| < |due|
    ensures Admitted(h, since, due, paused, visits + [v]) == Admitted(h, since, due, paused, visits) +
      if !Paused(due[|visits|], paused) && LetThrough(h, since, v, due[|visits|]) then {due[|visits|]} else {}
  {
    hide LetThrough;
    var all := visits + [v];
    assert forall i :: 0 <= i < |visits| ==> all[i] == visits[i];
  }

  lemma AdmittedStays(h: History, h': History, since: nat, due: seq<Entry>, paused: set<(string, string)>,
      visits: seq<Visit>, w: World)
    requires Extends(h, h') && |visits| <= |due| && AllMade(h, w, since, due, paused, visits)
    ensures Admitted(h', since, due, paused, visits) == Admitted(h, since, due, paused, visits)
    ensures Admitted(h, since, due, paused, visits) <= Unpaused(due, paused)
  {
    hide HasActive, HasKey;
    forall i | 0 <= i < |visits| && !Paused(due[i], paused)
      ensures LetThrough(h', since, visits[i], due[i]) <==> LetThrough(h, since, visits[i], due[i])
    {
      assert MadeFor(h, w, since, due[i], visits[i]);
    }
  }

  // What is said of the history so far stays true of a longer one.
  lemma StaysMade(h: History, w: World, h': History, w': World, since: nat, due: seq<Entry>,
      paused: set<(string, string)>, visits: seq<Visit>)
    requires Extends(h, h') && Went(h.steps, w, h'.steps, w') && AllMade(h, w, since, due, paused, visits)
    ensures AllMade(h', w', since, due, paused, visits)
  {
    hide Went, HasActive, HasKey;
    forall i | 0 <= i < |visits| && !Paused(due[i], paused) ensures MadeFor(h', w', since, due[i], visits[i]) {
      assert MadeFor(h, w, since, due[i], visits[i]);
      if HasKey(w.tasks, KeyOf(due[i])) {
        StillMade(h.steps, w, h'.steps, w', KeyOf(due[i]));
      }
    }
  }

  lemma StaysMoved(h: History, h': History, since: nat, due: seq<Entry>, now: nat, visits: seq<Visit>, moved: set<nat>)
    requires Extends(h, h') && AllMoved(h, since, due, now, visits, moved)
    ensures AllMoved(h', since, due, now, visits, moved) && |visits| !in moved
  {
    forall i | 0 <= i < |visits| ensures AdvancedAt(h', since, visits[i].moved, due[i], now, i in moved) {
      assert AdvancedAt(h, since, visits[i].moved, due[i], now, i in moved);
    }
  }

  lemma MadeMore(h: History, h': History, since: nat, before: set<Entry>, more: set<Entry>)
    requires Extends(h, h') && |h.worlds| == |h.steps| + 1
    requires MadeOnly(h, since, before) && MadeOnly(h', |h.steps|, more)
    ensures MadeOnly(h', since, before + more)
  {
  }

  lemma MadeWithin(h: History, since: nat, entries: set<Entry>, more: set<Entry>)
    requires MadeOnly(h, since, entries) && entries <= more
    ensures MadeOnly(h, since, more)
  {
  }

  lemma NextMade(h: History, w: World, since: nat, due: seq<Entry>, paused: set<(string, string)>,
      visits: seq<Visit>, v: Visit)
    requires |visits| < |due| && AllMade(h, w, since, due, paused, visits)
    requires !Paused(due[|visits|], paused) ==> MadeFor(h, w, since, due[|visits|], v)
    ensures AllMade(h, w, since, due, paused, visits + [v])
  {
    hide MadeFor;
  }

  lemma NextMoved(h: History, since: nat, due: seq<Entry>, now: nat, visits: seq<Visit>, moved: set<nat>, v: Visit,
      changed: bool)
    requires |visits| < |due| && AllMoved(h, since, due, now, visits, moved)
    requires AdvancedAt(h, since, v.moved, due[|visits|], now, changed)
    ensures AllMoved(h, since, due, now, visits + [v], if changed then moved + {|visits|} else moved)
  {
    hide AdvancedAt;
  }

  lemma EarlierVisit(h: History, since: nat, later: nat, v: Visit, e: Entry, now: nat, changed: bool)
    requires since <= later
    ensures Visited(h, later, v, e) ==>
      Visited(h, since, v, e) && (LetThrough(h, later, v, e) <==> LetThrough(h, since, v, e))
    ensures AdvancedAt(h, later, v.moved, e, now, changed) ==> AdvancedAt(h, since, v.moved, e, now, changed)
  {
    hide HasActive;
  }

  class Scheduler {
    const env: Env
    const who: nat
    var world: World
    ghost var worlds: seq<World>
    ghost var steps: seq<Step>
    // How often a call of the store or the gate has failed.
    ghost var trouble: nat

    constructor (env: Env, who: nat, world: World)
      requires CronMovesOn(env) && Kept(world)
      ensures Valid() && this.world == world && this.env == env && this.who == who && worlds == [world] && steps == []
    {
      this.env, this.who := env, who;
      this.world := world;
      worlds, steps := [world], [];
      trouble := 0;
    }

    // The history is a run.
    ghost predicate Valid()
      reads this`world, this`worlds, this`steps
    {
      CronMovesOn(env) && IsRun(env, worlds, steps) && Kept(worlds[0]) && worlds[|worlds| - 1] == world
    }

    lemma OneWorldMore()
      requires Valid()
      ensures |worlds| == |steps| + 1
    {
    }

    lemma KeptNow()
      requires Valid()
      ensures Kept(world)
    {
      KeptRun(env, worlds, steps, |worlds| - 1);
    }

    method Take(next: World, ghost step: Step)
      requires Valid() && Next(env, world, next, step)
      modifies this`world, this`worlds, this`steps
      ensures Valid() && world == next && worlds == old(worlds) + [next] && steps == old(steps) + [step]
      ensures Went(old(steps), old(world), steps, world)
    {
      KeptNow();
      OnwardStep(env, world, next, step);
      hide Next, Kept, Onward;
      worlds := worlds + [next];
      steps := steps + [step];
      world := next;
      assert steps[|old(steps)|..] == [step];
    }

    ghost function Now(): History
      reads this`worlds, this`steps
    {
      History(env, who, worlds, steps)
    }

    // What this reconciler has looked for is its own.
    static predicate SameLook(w: World, w': World, who: nat) {
      (who in w.looks <==> who in w'.looks) && (who in w.looks ==> w'.looks[who] == w.looks[who])
    }

    // One effect of another reconciler.
    method OtherReconciler()
      requires Valid()
      modifies this`world, this`worlds, this`steps
      ensures Valid() && old(worlds) <= worlds && old(steps) <= steps
      ensures Went(old(steps), old(world), steps, world) && SameLook(old(world), world, who)
      ensures Idle(Now(), |old(steps)|)
    {
      KeptNow();
      WentNowhere(steps, world);
      var other: nat := Anything();
      var e: Entry := *;
      var now: nat := Anything();
      if * {
        if e in world.known && other != who {
          Take(Looked(world, other, e), Look(other, e));
        }
      } else if * {
        if other in world.looks && other != who {
          Take(Enqueued(env, world, world.looks[other]).(looks := world.looks - {other}), Enqueue(other));
        }
      } else if * {
        if other != who {
          Take(world.(looks := world.looks - {other}), Drop(other));
        }
      } else if e in world.known && e.next <= now {
        var next := NextRun(env, e, now);
        Take(Advanced(world, e, next), Advance(e, next, now));
      }
    }

    // Tasks end, are dismissed and restarted.
    method TasksGoOn()
      requires Valid()
      modifies this`world, this`worlds, this`steps
      ensures Valid() && old(worlds) <= worlds && old(steps) <= steps
      ensures Went(old(steps), old(world), steps, world) && SameLook(old(world), world, who)
      ensures Idle(Now(), |old(steps)|)
    {
      WentNowhere(steps, world);
      var key: Key := *;
      var failing: bool := *;
      if HasKey(world.tasks, key) && key !in world.finished {
        Take(world.(finished := world.finished + {key},
                    failed := if failing then world.failed + {key} else world.failed), Finish(key, failing));
      } else if key in world.failed {
        if * {
          Take(world.(failed := world.failed - {key}), Dismiss(key));
        } else {
          Take(world.(finished := world.finished - {key}, failed := world.failed - {key}), Restart(key));
        }
      }
    }

    // Jobs are resumed, and the configuration changes.
    method Operators()
      requires Valid()
      modifies this`world, this`worlds, this`steps
      ensures Valid() && old(worlds) <= worlds && old(steps) <= steps
      ensures Went(old(steps), old(world), steps, world) && SameLook(old(world), world, who)
      ensures Idle(Now(), |old(steps)|)
    {
      WentNowhere(steps, world);
      var now: nat := Anything();
      if * {
        var jobTag: string, profileId: string := *, *;
        Take(Triggered(world, jobTag, profileId, now), Trigger(jobTag, profileId, now));
      } else {
        var schedules: map<Slot, Entry> := *;
        if Configured(schedules) && Resynced(world, schedules, now) {
          Take(world.(schedules := schedules, known := world.known + schedules.Values), Sync(schedules, now));
        }
      }
    }

    // Whatever happens meanwhile.
    method Interference()
      requires Valid()
      modifies this`world, this`worlds, this`steps
      ensures Valid() && old(worlds) <= worlds && old(steps) <= steps
      ensures Went(old(steps), old(world), steps, world) && SameLook(old(world), world, who)
      ensures Idle(Now(), |old(steps)|)
    {
      hide Valid, Went;
      WentNowhere(steps, world);
      var rounds := Anything();
      for i := 0 to rounds
        invariant Valid() && old(worlds) <= worlds && old(steps) <= steps && Idle(Now(), |old(steps)|)
        invariant Went(old(steps), old(world), steps, world) && SameLook(old(world), world, who)
      {
        ghost var s, w := steps, world;
        if * {
          OtherReconciler();
        } else if * {
          TasksGoOn();
        } else {
          Operators();
        }
        WentOn(old(steps), old(world), s, w, steps, world);
      }
    }

    method Anything() returns (n: nat) {
      var value: int := *;
      n := if value < 0 then 0 else value;
    }

    // Due entries in the order of the query: all there are, or as many of the first ones
    // as the limit allows.
    static ghost predicate DueList(w: World, entries: seq<Entry>, now: nat, limit: nat) {
      |entries| <= limit && (forall i :: 0 <= i < |entries| ==> Due(w, entries[i], now)) && InOrder(entries) &&
      (forall i, j :: 0 <= i < j < |entries| ==> entries[i].next <= entries[j].next) &&
      forall slot :: slot in w.schedules && w.schedules[slot].next <= now ==>
        w.schedules[slot] in entries || (|entries| == limit && AllEarlier(entries, w.schedules[slot]))
    }

    // A stored entry whose occurrence has come.
    static ghost predicate Due(w: World, e: Entry, now: nat) {
      e in w.known && e.next <= now && e.slot in w.schedules && w.schedules[e.slot] == e
    }

    method DueSchedules(now: nat, limit: nat) returns (entries: seq<Entry>)
      requires Valid()
      ensures DueList(world, entries, now, limit)
    {
      KeptNow();
      hide AllEarlier, InOrder, IsEarliest;
      entries := [];
      var left := set slot | slot in world.schedules && world.schedules[slot].next <= now;
      NothingListed(world.schedules, left);
      while left != {} && |entries| < limit
        invariant |entries| <= limit && left <= world.schedules.Keys
        invariant forall slot :: slot in left ==> world.schedules[slot].next <= now
        invariant forall i :: 0 <= i < |entries| ==> Due(world, entries[i], now)
        invariant InOrder(entries) && AllBefore(entries, world.schedules, left)
        invariant forall slot :: slot in world.schedules && world.schedules[slot].next <= now ==>
          slot in left || world.schedules[slot] in entries
        decreases left
      {
        EarliestExists(world.schedules, left);
        var slot :| slot in left && IsEarliest(world.schedules, left, slot);
        EarliestComesNext(entries, world.schedules, left, slot);
        left := left - {slot};
        entries := entries + [world.schedules[slot]];
      }
    }

    // The store's answer, which may be out of date as soon as it is given. looked says where
    // in the history it was asked.
    method HasActiveTask(e: Entry) returns (r: Option<bool>, ghost looked: nat)
      requires Valid() && e in world.known
      modifies this
      ensures Valid() && old(worlds) <= worlds && old(steps) <= steps && Went(old(steps), old(world), steps, world)
      ensures Idle(Now(), |old(steps)|)
      ensures trouble == old(trouble) + if r.None? then 1 else 0
      ensures r.Some? ==> LookedAt(Now(), |old(steps)|, looked, e)
      ensures r.Some? ==> (r.value <==> FoundActive(Now(), looked, e))
      ensures r == Some(false) ==> who in world.looks && world.looks[who] == e
    {
      hide Next, Went, HasActive;
      Interference();
      StillKnown(old(steps), old(world), steps, world, e);
      looked := |steps|;
      if * {
        trouble := trouble + 1;
        return None, looked;
      }
      ghost var s, w := steps, world;
      var active := HasActive(world, e.slot.jobTag, e.profileId);
      LookAllowed(env, world, who, e);
      Take(Looked(world, who, e), Look(who, e));
      ghost var s1, w1 := steps, world;
      Interference();
      WentOn(old(steps), old(world), s, w, s1, w1);
      WentOn(old(steps), old(world), s1, w1, steps, world);
      r := Some(active);
    }

    // The gate may hold the job back.
    method AskGate(e: Entry) returns (allowed: Option<bool>, ghost asked: nat)
      requires Valid() && who in world.looks && world.looks[who] == e
      modifies this
      ensures Valid() && old(worlds) <= worlds && old(steps) <= steps && Went(old(steps), old(world), steps, world)
      ensures Idle(Now(), |old(steps)|)
      ensures trouble == old(trouble) + if allowed.None? then 1 else 0
      ensures who in world.looks && world.looks[who] == e
      ensures allowed.Some? ==>
        |old(steps)| <= asked < |steps| && steps[asked] == Gate(who, e, allowed.value)
    {
      hide Went;
      WentNowhere(steps, world);
      asked := |steps|;
      if * {
        trouble := trouble + 1;
        return None, asked;
      }
      var answer: bool := *;
      Take(world, Gate(who, e, answer));
      ghost var s1, w1 := steps, world;
      hide Next;
      Interference();
      WentOn(old(steps), old(world), s1, w1, steps, world);
      allowed := Some(answer);
    }

    method EnqueueEntry(e: Entry) returns (ok: bool)
      requires Valid() && who in world.looks && world.looks[who] == e
      modifies this
      ensures Valid() && old(worlds) <= worlds && old(steps) <= steps && Went(old(steps), old(world), steps, world)
      ensures MadeOnly(Now(), |old(steps)|, {e})
      ensures trouble == old(trouble) + if ok then 0 else 1
      ensures ok ==> HasKey(world.tasks, KeyOf(e))
    {
      KeptNow();
      hide Went, Kept;
      WentNowhere(steps, world);
      if * {
        trouble := trouble + 1;
        return false;
      }
      EnqueuedHasKey(env, world, e);
      Take(Enqueued(env, world, e).(looks := world.looks - {who}), Enqueue(who));
      ghost var s, w := steps, world;
      hide Next;
      Interference();
      StillMade(s, w, steps, world, KeyOf(e));
      WentOn(old(steps), old(world), s, w, steps, world);
      ok := *;
      if !ok {
        trouble := trouble + 1;
      }
    }

    // The closed gate lets the look go.
    method DropLook()
      requires Valid()
      modifies this`world, this`worlds, this`steps
      ensures Valid() && old(worlds) <= worlds && old(steps) <= steps && Went(old(steps), old(world), steps, world)
      ensures Idle(Now(), |old(steps)|)
    {
      Take(world.(looks := world.looks - {who}), Drop(who));
    }

    // Success means that the schedule has passed the entry, unless the job was resumed or
    // the configuration changed after the entry was read; changed says that this very call
    // moved it. at says where in the history: to a whole interval from now, or to where
    // the cron expression fires next.
    method AdvanceEntry(e: Entry, now: nat, ghost read: seq<Step>) returns (ok: bool, changed: bool, ghost at: nat)
      requires Valid() && e in world.known && e.next <= now
      requires read <= steps && Past(world, e, steps[|read|..], e.next)
      modifies this
      ensures Valid() && old(worlds) <= worlds && old(steps) <= steps && Went(old(steps), old(world), steps, world)
      ensures Idle(Now(), |old(steps)|)
      ensures trouble == old(trouble) + if ok then 0 else 1
      ensures read <= steps && (ok ==> Past(world, e, steps[|read|..], e.next + 1))
      ensures ok && changed ==> Past(world, e, steps[|read|..], now + 1)
      ensures ok ==> AdvancedAt(Now(), |old(steps)|, at, e, now, changed)
    {
      KeptNow();
      WentNowhere(steps, world);
      at := |steps|;
      if * {
        trouble := trouble + 1;
        return false, false, at;
      }
      changed := Current(world, e);
      var next := NextRun(env, e, now);
      ghost var w := world;
      hide Went;
      Take(Advanced(world, e, next), Advance(e, next, now));
      ghost var s1, w1 := steps, world;
      hide Next, Kept;
      AdvancedPast(w, e, next, now, read, old(steps), s1);
      Interference();
      WentOn(old(steps), old(world), s1, w1, steps, world);
      PastStays(w1, world, e, read, s1, steps, e.next + 1);
      if changed {
        PastStays(w1, world, e, read, s1, steps, now + 1);
      }
      ok := *;
      if !ok {
        trouble := trouble + 1;
      }
    }

    // One due entry: a paused job only moves on; an active job or a closed gate makes
    // no task; and otherwise the occurrence has its task before the schedule moves on.
    method ReconcileEntry(e: Entry, now: nat, paused: bool, ghost read: seq<Step>)
      returns (ok: bool, changed: bool, ghost v: Visit)
      requires Valid() && e in world.known && e.next <= now
      requires read <= steps && Past(world, e, steps[|read|..], e.next)
      modifies this
      ensures Valid() && old(worlds) <= worlds && old(steps) <= steps && Went(old(steps), old(world), steps, world)
      ensures trouble == old(trouble) + if ok then 0 else 1
      ensures ok && !paused ==> Visited(Now(), |old(steps)|, v, e)
      ensures ok && !paused && LetThrough(Now(), |old(steps)|, v, e) ==> HasKey(world.tasks, KeyOf(e))
      ensures MadeOnly(Now(), |old(steps)|,
        if !paused && (ok ==> LetThrough(Now(), |old(steps)|, v, e)) then {e} else {})
      ensures read <= steps && (ok ==> Past(world, e, steps[|read|..], e.next + 1))
      ensures ok && changed ==> Past(world, e, steps[|read|..], now + 1)
      ensures ok ==> AdvancedAt(Now(), |old(steps)|, v.moved, e, now, changed)
    {
      hide Valid, Went, Past, HasActive;
      v := Visit(0, 0, 0);
      changed := false;
      WentNowhere(steps, world);
      if !paused {
        ghost var looked, asked;
        ok, looked, asked := MakeIfWanted(e);
        v := Visit(looked, asked, 0);
        if !ok {
          PastStays(old(world), world, e, read, old(steps), steps, e.next);
          return;
        }
      }
      ghost var s, w := steps, world;
      OneWorldMore();
      ghost var let := LetThrough(Now(), |old(steps)|, v, e);
      StillKnown(old(steps), old(world), s, w, e);
      PastStays(old(world), world, e, read, old(steps), steps, e.next);
      ghost var at;
      ok, changed, at := AdvanceEntry(e, now, read);
      v := v.(moved := at);
      assert !paused ==> (LetThrough(Now(), |old(steps)|, v, e) <==> let);
      if HasKey(w.tasks, KeyOf(e)) {
        StillMade(s, w, steps, world, KeyOf(e));
      }
      WentOn(old(steps), old(world), s, w, steps, world);
    }

    // The look, the gate and the task.
    method MakeIfWanted(e: Entry) returns (ok: bool, ghost looked: nat, ghost asked: nat)
      requires Valid() && e in world.known
      modifies this
      ensures Valid() && old(worlds) <= worlds && old(steps) <= steps && Went(old(steps), old(world), steps, world)
      ensures trouble == old(trouble) + if ok then 0 else 1
      ensures ok ==> Visited(Now(), |old(steps)|, Visit(looked, asked, 0), e)
      ensures ok && LetThrough(Now(), |old(steps)|, Visit(looked, asked, 0), e) ==> HasKey(world.tasks, KeyOf(e))
      ensures MadeOnly(Now(), |old(steps)|, {e})
      ensures ok && !LetThrough(Now(), |old(steps)|, Visit(looked, asked, 0), e) ==> Idle(Now(), |old(steps)|)
    {
      hide Valid, Went, HasActive;
      asked := 0;
      var active;
      active, looked := HasActiveTask(e);
      if active.None? {
        return false, looked, asked;
      }
      if active.value {
        return true, looked, asked;
      }
      ghost var s, w := steps, world;
      var allowed;
      allowed, asked := AskGate(e);
      WentOn(old(steps), old(world), s, w, steps, world);
      if allowed.None? {
        return false, looked, asked;
      }
      s, w := steps, world;
      if allowed.value {
        ok := EnqueueEntry(e);
      } else {
        DropLook();
        ok := true;
      }
      HistoryKept(s, w, steps, world);
      WentOn(old(steps), old(world), s, w, steps, world);
    }

    // The first entries are behind their schedules.
    static ghost predicate AllLeft(w: World, due: seq<Entry>, taken: seq<Step>, n: nat) {
      n <= |due| && forall i :: 0 <= i < n ==> Past(w, due[i], taken, due[i].next + 1)
    }

    static lemma AllLeftNext(w: World, w': World, due: seq<Entry>, read: seq<Step>, s: seq<Step>, s': seq<Step>,
        n: nat)
      requires read <= s && Went(s, w, s', w') && AllLeft(w, due, s[|read|..], n) && n < |due|
      requires read <= s' && Past(w', due[n], s'[|read|..], due[n].next + 1)
      ensures AllLeft(w', due, s'[|read|..], n + 1)
    {
      hide Past;
      forall i | 0 <= i < n ensures Past(w', due[i], s'[|read|..], due[i].next + 1) {
        assert Past(w, due[i], s[|read|..], due[i].next + 1);
        PastStays(w, w', due[i], read, s, s', due[i].next + 1);
      }
    }

    lemma StartsEmpty(due: seq<Entry>, now: nat, paused: set<(string, string)>)
      ensures AllMade(Now(), world, |steps|, due, paused, []) && AllMoved(Now(), |steps|, due, now, [], {})
      ensures MadeOnly(Now(), |steps|, Admitted(Now(), |steps|, due, paused, []))
      ensures AllLeft(world, due, steps[|steps|..], 0)
    {
    }

    // One entry after another.
    method ReconcileNext(due: seq<Entry>, i: nat, now: nat, paused: set<(string, string)>, ghost read: seq<Step>,
        ghost first: World, ghost visits: seq<Visit>, ghost moved: set<nat>)
      returns (done: bool, changed: bool, ghost v: Visit)
      requires Valid() && i == |visits| < |due| && Due(first, due[i], now)
      requires read <= steps && Went(read, first, steps, world)
      requires AllMoved(Now(), |read|, due, now, visits, moved) && AllMade(Now(), world, |read|, due, paused, visits)
      requires AllLeft(world, due, steps[|read|..], i)
      requires MadeOnly(Now(), |read|, Admitted(Now(), |read|, due, paused, visits))
      modifies this
      ensures Valid() && old(worlds) <= worlds && old(steps) <= steps && Went(old(steps), old(world), steps, world)
      ensures trouble == old(trouble) + if done then 0 else 1
      ensures read <= steps && i !in moved
      ensures AllMade(Now(), world, |read|, due, paused, visits) && AllMoved(Now(), |read|, due, now, visits, moved)
      ensures MadeOnly(Now(), |read|, Unpaused(due, paused))
      ensures done ==> MadeOnly(Now(), |read|, Admitted(Now(), |read|, due, paused, visits + [v]))
      ensures done ==> AllLeft(world, due, steps[|read|..], i + 1)
      ensures done ==> AllMade(Now(), world, |read|, due, paused, visits + [v])
      ensures done ==> AllMoved(Now(), |read|, due, now, visits + [v], if changed then moved + {i} else moved)
    {
      hide Valid, Went, AllLeft, AllMade, AllMoved, MadeOnly, Visited, LetThrough, AdvancedAt, HasActive;
      hide Admitted;
      OneWorldMore();
      ghost var h, w := Now(), world;
      DueIsPast(read, first, steps, world, due[i], now);
      var isPaused := Paused(due[i], paused);
      done, changed, v := ReconcileEntry(due[i], now, isPaused, read);
      StaysMade(h, w, Now(), world, |read|, due, paused, visits);
      StaysMoved(h, Now(), |read|, due, now, visits, moved);
      AdmittedStays(h, Now(), |read|, due, paused, visits, w);
      ghost var made := if !isPaused && (done ==> LetThrough(Now(), |h.steps|, v, due[i])) then {due[i]} else {};
      MadeMore(h, Now(), |read|, Admitted(h, |read|, due, paused, visits), made);
      MadeWithin(Now(), |read|, Admitted(h, |read|, due, paused, visits) + made, Unpaused(due, paused));
      if done {
        AllLeftNext(w, world, due, read, h.steps, steps, i);
        EarlierVisit(Now(), |read|, |h.steps|, v, due[i], now, changed);
        AdmittedNext(Now(), |read|, due, paused, visits, v);
        NextMade(Now(), world, |read|, due, paused, visits, v);
        NextMoved(Now(), |read|, due, now, visits, moved, v, changed);
      }
    }

    method ReconcileAll(entries: seq<Entry>, now: nat, paused: set<(string, string)>)
      returns (ok: bool, advanced: nat, ghost visits: seq<Visit>, ghost moved: set<nat>)
      requires Valid() && forall i :: 0 <= i < |entries| ==> Due(world, entries[i], now)
      modifies this
      ensures Valid() && old(worlds) <= worlds && old(steps) <= steps && Went(old(steps), old(world), steps, world)
      ensures ok <==> trouble == old(trouble)
      ensures advanced == |moved| && AllMoved(Now(), |old(steps)|, entries, now, visits, moved)
      ensures ok ==> |visits| == |entries| && AllLeft(world, entries, steps[|old(steps)|..], |entries|)
      ensures AllMade(Now(), world, |old(steps)|, entries, paused, visits)
      ensures MadeOnly(Now(), |old(steps)|, Unpaused(entries, paused))
      ensures ok ==> MadeOnly(Now(), |old(steps)|, Admitted(Now(), |old(steps)|, entries, paused, visits))
    {
      hide Valid, Went, AllLeft, AllMade, AllMoved, MadeOnly, Visited, LetThrough, AdvancedAt, HasActive;
      StartsEmpty(entries, now, paused);
      visits, moved := [], {};
      advanced := 0;
      WentNowhere(steps, world);
      for i := 0 to |entries|
        invariant Valid() && old(worlds) <= worlds && old(steps) <= steps && Went(old(steps), old(world), steps, world)
        invariant trouble == old(trouble) && |visits| == i
        invariant advanced == |moved| && AllMoved(Now(), |old(steps)|, entries, now, visits, moved)
        invariant AllLeft(world, entries, steps[|old(steps)|..], i)
        invariant AllMade(Now(), world, |old(steps)|, entries, paused, visits)
        invariant MadeOnly(Now(), |old(steps)|, Admitted(Now(), |old(steps)|, entries, paused, visits))
      {
        ghost var s, w := steps, world;
        ghost var v;
        var done, changed;
        done, changed, v := ReconcileNext(entries, i, now, paused, old(steps), old(world), visits, moved);
        WentOn(old(steps), old(world), s, w, steps, world);
        if !done {
          return false, advanced, visits, moved;
        }
        visits := visits + [v];
        if changed {
          moved := moved + {i};
          advanced := advanced + 1;
        }
      }
      AdmittedStays(Now(), Now(), |old(steps)|, entries, paused, visits, world);
      MadeWithin(Now(), |old(steps)|, Admitted(Now(), |old(steps)|, entries, paused, visits),
        Unpaused(entries, paused));
      ok := true;
    }

    static lemma DueIsPast(s: seq<Step>, w: World, s': seq<Step>, w': World, e: Entry, now: nat)
      requires Due(w, e, now) && Went(s, w, s', w')
      ensures e in w'.known && s <= s' && Past(w', e, s'[|s|..], e.next)
    {
      assert Holds(w, e, e.next);
    }

    // One pass. Whatever it, other reconcilers and crashes did before, a pass that
    // reports success has left every entry it found due behind, unless the job was resumed or
    // the configuration changed meanwhile; it has looked at every entry that is not paused,
    // and made its task if no task of the job was active then and the gate let it through;
    // and it has made no other. No pass ever gives an occurrence a second task.
    method ReconcileDue(now: nat, paused: set<(string, string)>)
      returns (ok: bool, advanced: nat, ghost due: seq<Entry>, ghost visits: seq<Visit>, ghost moved: set<nat>)
      requires Valid()
      modifies this
      ensures Valid() && Kept(world) && old(worlds) <= worlds && old(steps) <= steps
      ensures Went(old(steps), old(world), steps, world)
      ensures DueList(old(world), due, now, 100)
      ensures ok <==> trouble == old(trouble)
      ensures advanced == |moved| && AllMoved(Now(), |old(steps)|, due, now, visits, moved)
      ensures ok ==> |visits| == |due| && AllLeft(world, due, steps[|old(steps)|..], |due|)
      ensures AllMade(Now(), world, |old(steps)|, due, paused, visits)
      ensures MadeOnly(Now(), |old(steps)|, Unpaused(due, paused))
      ensures ok ==> MadeOnly(Now(), |old(steps)|, Admitted(Now(), |old(steps)|, due, paused, visits))
    {
      hide Valid, Went, AllLeft, AllMade, AllMoved, MadeOnly, Kept;
      var entries := DueSchedules(now, 100);
      due := entries;
      ok, advanced, visits, moved := ReconcileAll(entries, now, paused);
      KeptNow();
    }
  }

  lemma StillKnown(s: seq<Step>, w: World, s': seq<Step>, w': World, e: Entry)
    requires Went(s, w, s', w') && e in w.known
    ensures e in w'.known
  {
  }

  lemma StillMade(s: seq<Step>, w: World, s': seq<Step>, w': World, key: Key)
    requires Went(s, w, s', w') && HasKey(w.tasks, key)
    ensures HasKey(w'.tasks, key)
  {
    HasKeyStays(w.tasks, w'.tasks, key);
  }

  lemma HistoryKept(s: seq<Step>, w: World, s': seq<Step>, w': World)
    requires Went(s, w, s', w')
    ensures s <= s'
  {
  }

  lemma LookAllowed(env: Env, w: World, who: nat, e: Entry)
    requires e in w.known
    ensures Next(env, w, Looked(w, who, e), Look(who, e))
    ensures !HasActive(w, e.slot.jobTag, e.profileId) ==>
      who in Looked(w, who, e).looks && Looked(w, who, e).looks[who] == e
  {
  }

  // The reconciler's own move, seen from where it read the entry.
  lemma AdvancedPast(w: World, e: Entry, next: nat, now: nat, read: seq<Step>, s: seq<Step>, s': seq<Step>)
    requires next > now >= e.next && read <= s && s' == s + [Advance(e, next, now)]
    requires Past(w, e, s[|read|..], e.next)
    ensures read <= s' && Past(Advanced(w, e, next), e, s'[|read|..], e.next + 1)
    ensures Current(w, e) ==> Past(Advanced(w, e, next), e, s'[|read|..], now + 1)
  {
    hide Holds;
    assert s'[|read|..] == s[|read|..] + [Advance(e, next, now)];
    if Undisturbed(s'[|read|..], e) {
      UndisturbedParts(s[|read|..], [Advance(e, next, now)], e);
    }
    MovedOn(w, e, next);
    LaterHolds(Advanced(w, e, next), e, now + 1, next);
  }

  lemma LaterHolds(w: World, e: Entry, next: nat, later: nat)
    requires next <= later
    ensures Holds(w, e, later) ==> Holds(w, e, next)
  {
  }

  lemma EnqueuedHasKey(env: Env, w: World, e: Entry)
    requires ValidBounds(e.jitterMin, e.jitterMax)
    ensures HasKey(Enqueued(env, w, e).tasks, KeyOf(e))
  {
    if !HasKey(w.tasks, KeyOf(e)) {
      assert (w.tasks + [TaskOf(env, e)])[|w.tasks|].key == KeyOf(e);
    }
  }

  lemma HasKeyStays(a: seq<Task>, b: seq<Task>, key: Key)
    requires HasKey(a, key) && a <= b
    ensures HasKey(b, key)
  {
    var i :| 0 <= i < |a| && a[i].key == key;
    assert b[i].key == key;
  }
}
