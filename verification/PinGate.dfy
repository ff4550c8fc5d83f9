/** Concurrent submissions of one PIN kind behind its gate: any interleaving is some sequential order of the attempts. */
module PinGate {
  import opened PairingTypes
  import opened PinCooldown

  /** One finished attempt: whether the PIN was right, and the clock at its check and at its record. */
  datatype Attempt = Attempt(correct: bool, checkedAt: Clock, recordedAt: Clock)

  /** The attempts one after another, from a given stored state. */
  function Sequential(a: Attempts, attempts: seq<Attempt>): (Attempts, seq<Verdict>) {
    if attempts == [] then (a, [])
    else
      var (before, verdicts) := Sequential(a, attempts[..|attempts| - 1]);
      var last := attempts[|attempts| - 1];
      var (after, verdict) := Attempted(before, last.correct, last.checkedAt, last.recordedAt);
      (after, verdicts + [verdict])
  }

  /** Where a submission is: Hashing and Compared hold the gate between its check and its record. */
  datatype Task =
    | Waiting
    | Entered
    | Hashing(checkedAt: Clock)
    | Compared(checkedAt: Clock)
    | Done(verdict: Verdict)

  datatype Sys = Sys(
    /** Which submissions carry the right PIN. */
    pins: seq<bool>,
    attempts: Attempts,
    gate: Option<nat>,
    tasks: seq<Task>,
    argon2Runs: nat,
    /** The finished attempts in the order in which they left the gate. */
    finished: seq<Attempt>,
    verdicts: seq<Verdict>)

  function At(s: Sys, i: nat, task: Task): Sys
    requires i < |s.tasks|
  {
    s.(tasks := s.tasks[i := task])
  }

  function Leaves(s: Sys, i: nat, attempt: Attempt, verdict: Verdict): Sys
    requires i < |s.tasks|
  {
    At(s, i, Done(verdict)).(gate := None, finished := s.finished + [attempt], verdicts := s.verdicts + [verdict])
  }

  /** Submission i makes its next move with this reading of the clock. */
  predicate Step(s: Sys, i: nat, clock: Clock, t: Sys) {
    && i < |s.tasks| == |s.pins|
    && match s.tasks[i]
       case Waiting =>
         s.gate.None? && t == At(s, i, Entered).(gate := Some(i))
       case Entered =>
         var (checked, remaining) := Checked(s.attempts, clock);
         t == (if remaining.Some?
               then Leaves(s.(attempts := checked), i, Attempt(s.pins[i], clock, clock), CooldownActive(remaining.value))
               else At(s.(attempts := checked), i, Hashing(clock)))
       case Hashing(checkedAt) =>
         t == At(s, i, Compared(checkedAt)).(argon2Runs := s.argon2Runs + 1)
       case Compared(checkedAt) =>
         if s.pins[i] then t == Leaves(s.(attempts := FRESH), i, Attempt(true, checkedAt, clock), Verified)
         else
           var (recorded, started) := Recorded(s.attempts, clock);
           t == Leaves(s.(attempts := recorded), i, Attempt(false, checkedAt, clock),
                       if started.Some? then CooldownStarted(started.value) else Incorrect)
       case Done(_) => false
  }

  datatype Move = Move(i: nat, clock: Clock)

  function Start(a: Attempts, pins: seq<bool>): Sys {
    Sys(pins, a, None, seq(|pins|, _ => Waiting), 0, [], [])
  }

  /** Which submission moves when is arbitrary. */
  predicate Run(states: seq<Sys>, moves: seq<Move>, a: Attempts) {
    && |states| == |moves| + 1 && states[0] == Start(a, states[0].pins)
    && forall k :: 0 <= k < |moves| ==> Step(states[k], moves[k].i, moves[k].clock, states[k + 1])
  }

  // ----- the gate makes attempts atomic

  predicate Inside(task: Task) {
    task.Entered? || task.Hashing? || task.Compared?
  }

  /** At most one submission is inside, and it holds the gate. */
  predicate Exclusive(s: Sys) {
    && (forall i :: 0 <= i < |s.tasks| ==> (Inside(s.tasks[i]) <==> s.gate == Some(i)))
    && (s.gate.Some? ==> s.gate.value < |s.tasks|)
  }

  /** What is stored is what the finished attempts leave one after another, plus the check of the one inside. */
  predicate Serial(s: Sys, a: Attempts) {
    && |s.tasks| == |s.pins| && |s.verdicts| == |s.finished| && Exclusive(s)
    && var (before, verdicts) := Sequential(a, s.finished);
       && s.verdicts == verdicts
       && (if s.gate.None? || s.tasks[s.gate.value].Entered? then s.attempts == before
           else s.attempts == Checked(before, s.tasks[s.gate.value].checkedAt).0
                && Checked(before, s.tasks[s.gate.value].checkedAt).1.None?)
  }

  lemma {:induction false} SequentialExtended(a: Attempts, attempts: seq<Attempt>, last: Attempt)
    ensures var (before, verdicts) := Sequential(a, attempts);
            var (after, verdict) := Attempted(before, last.correct, last.checkedAt, last.recordedAt);
            Sequential(a, attempts + [last]) == (after, verdicts + [verdict])
  {
    assert (attempts + [last])[..|attempts|] == attempts;
  }

  lemma StepKeepsSerial(s: Sys, a: Attempts, move: Move, t: Sys)
    requires Serial(s, a) && Step(s, move.i, move.clock, t)
    ensures Serial(t, a) && t.pins == s.pins
  {
    var correct := s.pins[move.i];
    match s.tasks[move.i] {
      case Waiting =>
      case Entered => SequentialExtended(a, s.finished, Attempt(correct, move.clock, move.clock));
      case Hashing(_) =>
      case Compared(checkedAt) => SequentialExtended(a, s.finished, Attempt(correct, checkedAt, move.clock));
    }
  }

  /** Refinement: whatever the interleaving, verdicts and stored state are those of a sequential run. */
  lemma {:induction false} InterleavingIsSequential(states: seq<Sys>, moves: seq<Move>, a: Attempts, k: nat)
    requires Run(states, moves, a) && k < |states|
    ensures Serial(states[k], a) && states[k].pins == states[0].pins
    ensures states[k].gate.None? ==> (states[k].attempts, states[k].verdicts) == Sequential(a, states[k].finished)
  {
    if k > 0 {
      InterleavingIsSequential(states, moves, a, k - 1);
      assert Step(states[k - 1], moves[k - 1].i, moves[k - 1].clock, states[k]);
      StepKeepsSerial(states[k - 1], a, moves[k - 1], states[k]);
    }
  }

  // ----- what the submissions are told

  /** The verdicts handed out so far. */
  function Told(tasks: seq<Task>): multiset<Verdict> {
    if tasks == [] then multiset{}
    else Told(tasks[..|tasks| - 1]) + (var last := tasks[|tasks| - 1]; if last.Done? then multiset{last.verdict} else multiset{})
  }

  lemma {:induction false} ToldAfter(tasks: seq<Task>, i: nat, task: Task)
    requires i < |tasks| && !tasks[i].Done?
    ensures Told(tasks[i := task]) == Told(tasks) + if task.Done? then multiset{task.verdict} else multiset{}
  {
    var n := |tasks| - 1;
    if i < n {
      ToldAfter(tasks[..n], i, task);
      assert tasks[i := task][..n] == tasks[..n][i := task];
    } else {
      assert tasks[i := task][..n] == tasks[..n];
    }
  }

  lemma {:induction false} ToldBefore(tasks: seq<Task>)
    requires forall i :: 0 <= i < |tasks| ==> !tasks[i].Done?
    ensures Told(tasks) == multiset{}
  {
    if tasks != [] {
      ToldBefore(tasks[..|tasks| - 1]);
    }
  }

  lemma {:induction false} ToldAll(tasks: seq<Task>)
    requires forall i :: 0 <= i < |tasks| ==> tasks[i].Done?
    ensures |Told(tasks)| == |tasks|
  {
    if tasks != [] {
      ToldAll(tasks[..|tasks| - 1]);
    }
  }

  function Hashed(verdicts: seq<Verdict>): nat {
    if verdicts == [] then 0
    else Hashed(verdicts[..|verdicts| - 1]) + if verdicts[|verdicts| - 1].CooldownActive? then 0 else 1
  }

  predicate Comparing(s: Sys) {
    s.gate.Some? && s.gate.value < |s.tasks| && s.tasks[s.gate.value].Compared?
  }

  /** Every verdict went to exactly one submission, and each attempt past the check cost one Argon2 run. */
  predicate Accounted(s: Sys) {
    && Told(s.tasks) == multiset(s.verdicts)
    && s.argon2Runs == Hashed(s.verdicts) + if Comparing(s) then 1 else 0
  }

  lemma {:induction false} HashedAfter(verdicts: seq<Verdict>, verdict: Verdict)
    ensures Hashed(verdicts + [verdict]) == Hashed(verdicts) + if verdict.CooldownActive? then 0 else 1
  {
    assert (verdicts + [verdict])[..|verdicts|] == verdicts;
  }

  lemma StepKeepsAccounts(s: Sys, move: Move, t: Sys)
    requires Exclusive(s) && Accounted(s) && Step(s, move.i, move.clock, t)
    ensures Accounted(t)
  {
    ToldAfter(s.tasks, move.i, t.tasks[move.i]);
    if t.tasks[move.i].Done? {
      var verdict := t.tasks[move.i].verdict;
      assert t.verdicts == s.verdicts + [verdict];
      HashedAfter(s.verdicts, verdict);
      assert verdict.CooldownActive? <==> s.tasks[move.i].Entered?;
    }
  }

  lemma {:induction false} RunIsAccounted(states: seq<Sys>, moves: seq<Move>, a: Attempts, k: nat)
    requires Run(states, moves, a) && k < |states|
    ensures Accounted(states[k])
  {
    if k == 0 {
      ToldBefore(states[0].tasks);
    } else {
      RunIsAccounted(states, moves, a, k - 1);
      InterleavingIsSequential(states, moves, a, k - 1);
      assert Step(states[k - 1], moves[k - 1].i, moves[k - 1].clock, states[k]);
      StepKeepsAccounts(states[k - 1], moves[k - 1], states[k]);
    }
  }

  // ----- many wrong PINs at once

  const FIRST_COOLDOWN: U64 := 30000

  predicate Told3(verdicts: seq<Verdict>) {
    forall j :: 0 <= j < |verdicts| ==>
      verdicts[j] == if j < 2 then Incorrect else if j == 2 then CooldownStarted(FIRST_COOLDOWN) else CooldownActive(FIRST_COOLDOWN)
  }

  /** n wrong attempts one after another, all at one reading of the clock. */
  lemma {:induction false} WrongAtOnce(attempts: seq<Attempt>, clock: Clock)
    requires forall j :: 0 <= j < |attempts| ==> attempts[j] == Attempt(false, clock, clock)
    requires clock.elapsed + FIRST_COOLDOWN <= U64_MAX
    ensures var n := |attempts|;
            var (after, verdicts) := Sequential(FRESH, attempts);
            && |verdicts| == n && Told3(verdicts)
            && after == (if n < 3 then FRESH.(failed := n)
                         else Attempts(0, 1, Some(clock.elapsed), Some(clock.boot), Some(FIRST_COOLDOWN)))
  {
    if attempts != [] {
      WrongAtOnce(attempts[..|attempts| - 1], clock);
      DurationIsPenalty(1);
    }
  }

  lemma {:induction false} CountTold3(verdicts: seq<Verdict>)
    requires Told3(verdicts)
    ensures var n := |verdicts|;
            && multiset(verdicts)[Incorrect] == Min(n, 2)
            && multiset(verdicts)[CooldownStarted(FIRST_COOLDOWN)] == (if n >= 3 then 1 else 0)
            && multiset(verdicts)[CooldownActive(FIRST_COOLDOWN)] == n - Min(n, 3)
            && Hashed(verdicts) == Min(n, 3)
  {
    if verdicts != [] {
      var n := |verdicts| - 1;
      CountTold3(verdicts[..n]);
      assert verdicts == verdicts[..n] + [verdicts[n]];
    }
  }

  predicate AllAt(s: Sys, clock: Clock) {
    && (forall j :: 0 <= j < |s.finished| ==> s.finished[j] == Attempt(false, clock, clock))
    && (forall i :: 0 <= i < |s.tasks| && (s.tasks[i].Hashing? || s.tasks[i].Compared?) ==> s.tasks[i].checkedAt == clock)
  }

  lemma {:induction false} RunAllAt(states: seq<Sys>, moves: seq<Move>, clock: Clock, k: nat)
    requires Run(states, moves, FRESH) && k < |states|
    requires forall j :: 0 <= j < |moves| ==> moves[j].clock == clock
    requires forall i :: 0 <= i < |states[0].pins| ==> !states[0].pins[i]
    ensures AllAt(states[k], clock)
  {
    if k > 0 {
      RunAllAt(states, moves, clock, k - 1);
      InterleavingIsSequential(states, moves, FRESH, k - 1);
      assert Step(states[k - 1], moves[k - 1].i, moves[k - 1].clock, states[k]);
    }
  }

  lemma WrongTally(s: Sys, clock: Clock)
    requires Serial(s, FRESH) && AllAt(s, clock) && clock.elapsed + FIRST_COOLDOWN <= U64_MAX
    ensures Told3(s.verdicts) && Hashed(s.verdicts) == Min(|s.verdicts|, 3)
    ensures Comparing(s) ==> |s.verdicts| < 3
  {
    WrongAtOnce(s.finished, clock);
    CountTold3(s.verdicts);
  }

  lemma AllTold(s: Sys)
    requires Accounted(s) && forall i :: 0 <= i < |s.tasks| ==> s.tasks[i].Done?
    ensures |s.verdicts| == |s.tasks|
  {
    ToldAll(s.tasks);
    assert |multiset(s.verdicts)| == |s.verdicts|;
  }

  lemma FinalTally(s: Sys, clock: Clock)
    requires Serial(s, FRESH) && Accounted(s) && AllAt(s, clock) && clock.elapsed + FIRST_COOLDOWN <= U64_MAX
    requires forall i :: 0 <= i < |s.tasks| ==> s.tasks[i].Done?
    ensures var n := |s.tasks|;
            var told := Told(s.tasks);
            && told[Incorrect] == Min(n, 2)
            && told[CooldownStarted(FIRST_COOLDOWN)] == (if n >= 3 then 1 else 0)
            && told[CooldownActive(FIRST_COOLDOWN)] == n - Min(n, 3)
            && s.argon2Runs == Min(n, 3)
  {
    WrongTally(s, clock);
    AllTold(s);
    CountTold3(s.verdicts);
    assert !Comparing(s);
  }

  /** N simultaneous wrong PINs from a fresh state: two are told so, the third starts the cooldown, the rest wait. */
  lemma {:induction false} SimultaneousWrongPins(states: seq<Sys>, moves: seq<Move>, clock: Clock, k: nat)
    requires Run(states, moves, FRESH) && k < |states|
    requires forall j :: 0 <= j < |moves| ==> moves[j].clock == clock
    requires forall i :: 0 <= i < |states[0].pins| ==> !states[0].pins[i]
    requires clock.elapsed + FIRST_COOLDOWN <= U64_MAX
    ensures states[k].argon2Runs <= 3
    ensures (forall i :: 0 <= i < |states[k].tasks| ==> states[k].tasks[i].Done?) ==>
              var n := |states[0].pins|;
              var told := Told(states[k].tasks);
              && told[Incorrect] == Min(n, 2)
              && told[CooldownStarted(FIRST_COOLDOWN)] == (if n >= 3 then 1 else 0)
              && told[CooldownActive(FIRST_COOLDOWN)] == n - Min(n, 3)
              && states[k].argon2Runs == Min(n, 3)
  {
    var s := states[k];
    InterleavingIsSequential(states, moves, FRESH, k);
    RunIsAccounted(states, moves, FRESH, k);
    RunAllAt(states, moves, clock, k);
    WrongTally(s, clock);
    if forall i :: 0 <= i < |s.tasks| ==> s.tasks[i].Done? {
      FinalTally(s, clock);
    }
  }
}
