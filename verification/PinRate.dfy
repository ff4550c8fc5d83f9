/** How fast wrong PINs can be tried: a bound on real time over every run, reboots and failing storage included. */
module PinRate {
  import opened PairingTypes
  import opened PinCooldown

  /** How a write to the attempt entry ends; FailedAfter took effect all the same. */
  datatype Effect = Saved | FailedBefore | FailedAfter

  /** Where the attempt behind the gate is. A reading of the clock is used only when the store is reached. */
  datatype Stage =
    | Idle
    | Looking(reading: Clock, at: nat)
    | Armed
    | Noting(reading: Clock, at: nat)

  datatype World = World(
    attempts: Attempts,
    stage: Stage,
    /** True time in milliseconds, which no reading of the clock shows. */
    now: nat,
    clock: Clock,
    // what an observer remembers since the last success or reset
    /** For each recorded wrong PIN, when its clock was read. */
    failed: seq<nat>,
    /** When each wrong-PIN verdict was given. */
    verdicts: seq<nat>)

  datatype Event =
    | Passes(now: nat, clock: Clock)
    | Looks
    | Checks(effect: Effect)
    | Notes
    | Fails(effect: Effect)
    | Succeeds(effect: Effect)
    | Stops
    | Resets

  const PENALTY_MAX: nat := 1800000

  /** Within one boot the clock never runs ahead of true time; a boot never comes back. */
  predicate Later(now: nat, clock: Clock, later: nat, reading: Clock) {
    && now <= later
    && (if reading.boot == clock.boot
        then clock.elapsed <= reading.elapsed && reading.elapsed - clock.elapsed <= later - now
        else clock.boot < reading.boot)
  }

  predicate Step(w: World, e: Event, v: World) {
    match e
    case Passes(now, clock) =>
      && Later(w.now, w.clock, now, clock) && clock.elapsed + PENALTY_MAX <= U64_MAX
      && v == w.(now := now, clock := clock, stage := if clock.boot == w.clock.boot then w.stage else Idle)
    case Looks =>
      w.stage.Idle? && v == w.(stage := Looking(w.clock, w.now))
    case Checks(effect) =>
      && w.stage.Looking?
      && var (checked, remaining) := Checked(w.attempts, w.stage.reading);
         v == w.(attempts := if effect == FailedBefore then w.attempts else checked,
                 stage := if effect == Saved && remaining.None? then Armed else Idle)
    case Notes =>
      w.stage.Armed? && v == w.(stage := Noting(w.clock, w.now))
    case Fails(effect) =>
      && w.stage.Noting?
      && var (recorded, _) := Recorded(w.attempts, w.stage.reading);
         v == w.(attempts := if effect == FailedBefore then w.attempts else recorded,
                 stage := Idle,
                 failed := if effect == FailedBefore then w.failed else w.failed + [w.stage.at],
                 verdicts := if effect == Saved then w.verdicts + [w.now] else w.verdicts)
    case Succeeds(effect) =>
      && w.stage.Armed?
      && v == (if effect == FailedBefore then w.(stage := Idle)
               else w.(attempts := FRESH, stage := Idle, failed := [], verdicts := []))
    case Stops =>
      v == w.(stage := Idle)
    case Resets =>
      v == w.(attempts := FRESH, failed := [], verdicts := [])
  }

  predicate Starts(w: World) {
    w == World(FRESH, Idle, w.now, w.clock, [], []) && w.clock.elapsed + PENALTY_MAX <= U64_MAX
  }

  predicate Run(worlds: seq<World>, events: seq<Event>) {
    && |worlds| == |events| + 1 && Starts(worlds[0])
    && forall i :: 0 <= i < |events| ==> Step(worlds[i], events[i], worlds[i + 1])
  }

  // ----- the invariant

  /** The cooldown started by the n-th recorded failure, n a multiple of three, keeps the next one at bay. */
  ghost predicate Spaced(failed: seq<nat>, now: nat) {
    && (forall i, j :: 0 <= i <= j < |failed| ==> failed[i] <= failed[j] <= now)
    && (forall k :: 1 <= k && 3 * k < |failed| ==> failed[3 * k - 1] + Penalty(k) <= failed[3 * k])
  }

  /**
   Seen at this time: a cooldown under way is anchored so that no more of it is over than has really passed, and one
   that is no longer stored has been served.
   */
  ghost predicate Calm(a: Attempts, failed: seq<nat>, now: nat, clock: Clock) {
    var n := |failed|;
    && (n > 0 ==> failed[n - 1] <= now)
    && (if a.duration.None? then n > 0 && n % 3 == 0 ==> failed[n - 1] + Penalty(n / 3) <= now
        else
          && n > 0 && n % 3 == 0 && a.duration == Some(CooldownDuration(a.level))
          && a.started.Some? && a.boot.Some? && a.boot.value <= clock.boot
          && (a.boot == Some(clock.boot) ==>
                a.started.value <= clock.elapsed && clock.elapsed - a.started.value <= now - failed[n - 1]))
  }

  /** The counters hold the number of recorded failures. */
  ghost predicate Counted(a: Attempts, failed: seq<nat>) {
    && a.failed == |failed| % 3 && a.level == Min(|failed| / 3, 0xFF)
    && (a.started.Some? ==> a.started.value + PENALTY_MAX <= U64_MAX)
  }

  ghost predicate StageOk(w: World) {
    match w.stage
    case Idle => true
    case Armed => w.attempts.duration.None?
    case Looking(reading, at) => ReadingOk(w, reading, at)
    case Noting(reading, at) => w.attempts.duration.None? && ReadingOk(w, reading, at)
  }

  ghost predicate ReadingOk(w: World, reading: Clock, at: nat) {
    && reading.boot == w.clock.boot && Later(at, reading, w.now, w.clock)
    && Calm(w.attempts, w.failed, at, reading)
  }

  ghost predicate Paced(w: World) {
    && Spaced(w.failed, w.now) && Counted(w.attempts, w.failed)
    && w.clock.elapsed + PENALTY_MAX <= U64_MAX
    && Calm(w.attempts, w.failed, w.now, w.clock) && StageOk(w)
  }

  /** The m-th verdict is never earlier than the reading of the m-th recorded failure. */
  ghost predicate Backed(w: World) {
    && |w.verdicts| <= |w.failed|
    && forall m :: 0 <= m < |w.verdicts| ==> w.failed[m] <= w.verdicts[m] <= w.now
  }

  lemma {:induction false} CalmLater(a: Attempts, failed: seq<nat>, now: nat, clock: Clock, later: nat, reading: Clock)
    requires Calm(a, failed, now, clock) && Later(now, clock, later, reading)
    ensures Calm(a, failed, later, reading)
  {
  }

  lemma {:induction false} CheckStaysCalm(a: Attempts, failed: seq<nat>, now: nat, clock: Clock)
    requires Calm(a, failed, now, clock) && Counted(a, failed) && clock.elapsed + PENALTY_MAX <= U64_MAX
    ensures Calm(Checked(a, clock).0, failed, now, clock) && Counted(Checked(a, clock).0, failed)
    ensures Checked(a, clock).1.None? ==> Checked(a, clock).0.duration.None?
  {
    PenaltyPastSaturation(|failed| / 3);
  }

  lemma CountsByThree(n: nat)
    ensures n % 3 < 2 ==> (n + 1) % 3 == n % 3 + 1 && (n + 1) / 3 == n / 3
    ensures n % 3 == 2 ==> (n + 1) % 3 == 0 && (n + 1) / 3 == n / 3 + 1
  {
  }

  lemma {:induction false} FailureStaysCalm(a: Attempts, failed: seq<nat>, now: nat, clock: Clock)
    requires Calm(a, failed, now, clock) && Counted(a, failed) && clock.elapsed + PENALTY_MAX <= U64_MAX
    requires a.duration.None?
    ensures Calm(Recorded(a, clock).0, failed + [now], now, clock) && Counted(Recorded(a, clock).0, failed + [now])
  {
    CountsByThree(|failed|);
    DurationIsPenalty(Recorded(a, clock).0.level);
  }

  lemma {:induction false} SpacedExtended(failed: seq<nat>, at: nat, now: nat)
    requires Spaced(failed, now) && at <= now
    requires var n := |failed|; n > 0 ==> failed[n - 1] <= at && (n % 3 == 0 ==> failed[n - 1] + Penalty(n / 3) <= at)
    ensures Spaced(failed + [at], now)
  {
    var n := |failed|;
    var longer := failed + [at];
    assert longer[..n] == failed;
    forall k | 1 <= k && 3 * k < n + 1 ensures longer[3 * k - 1] + Penalty(k) <= longer[3 * k] {
      if 3 * k == n {
        assert k == n / 3;
      }
    }
  }

  lemma PassingKeepsPaced(w: World, now: nat, clock: Clock, v: World)
    requires Paced(w) && Step(w, Passes(now, clock), v)
    ensures Paced(v)
  {
    CalmLater(w.attempts, w.failed, w.now, w.clock, now, clock);
  }

  lemma CheckKeepsPaced(w: World, effect: Effect, v: World)
    requires Paced(w) && Step(w, Checks(effect), v)
    ensures Paced(v)
  {
    if effect != FailedBefore {
      var Looking(reading, at) := w.stage;
      CheckStaysCalm(w.attempts, w.failed, at, reading);
      CalmLater(v.attempts, w.failed, at, reading, w.now, w.clock);
    }
  }

  lemma FailureKeepsPaced(w: World, effect: Effect, v: World)
    requires Paced(w) && Step(w, Fails(effect), v)
    ensures Paced(v)
  {
    if effect != FailedBefore {
      var Noting(reading, at) := w.stage;
      SpacedExtended(w.failed, at, w.now);
      FailureStaysCalm(w.attempts, w.failed, at, reading);
      CalmLater(v.attempts, v.failed, at, reading, w.now, w.clock);
    }
  }

  lemma StepKeepsPaced(w: World, e: Event, v: World)
    requires Paced(w) && Step(w, e, v)
    ensures Paced(v)
  {
    match e {
      case Passes(now, clock) => PassingKeepsPaced(w, now, clock, v);
      case Looks =>
      case Checks(effect) => CheckKeepsPaced(w, effect, v);
      case Notes =>
      case Fails(effect) => FailureKeepsPaced(w, effect, v);
      case Succeeds(_) =>
      case Stops =>
      case Resets =>
    }
  }

  lemma StepKeepsBacked(w: World, e: Event, v: World)
    requires Paced(w) && Backed(w) && Step(w, e, v)
    ensures Backed(v)
  {
    if e.Fails? {
      assert w.stage.at <= w.now;
    }
  }

  lemma {:induction false} RunKeepsPaced(worlds: seq<World>, events: seq<Event>, i: nat)
    requires Run(worlds, events) && i < |worlds|
    ensures Paced(worlds[i]) && Backed(worlds[i])
  {
    if i > 0 {
      RunKeepsPaced(worlds, events, i - 1);
      StepKeepsPaced(worlds[i - 1], events[i - 1], worlds[i]);
      StepKeepsBacked(worlds[i - 1], events[i - 1], worlds[i]);
    }
  }

  // ----- the bound

  /** The first k penalties together. */
  function Total(k: nat): nat {
    if k == 0 then 0 else Total(k - 1) + Penalty(k)
  }

  lemma {:induction false} SpacedAddsUp(failed: seq<nat>, now: nat, k: nat)
    requires Spaced(failed, now) && k >= 1 && 3 * k < |failed|
    ensures failed[2] + Total(k) <= failed[3 * k]
  {
    assert failed[3 * k - 1] + Penalty(k) <= failed[3 * k];
    if k == 1 {
      assert Total(0) == 0;
    } else {
      SpacedAddsUp(failed, now, k - 1);
      assert failed[3 * (k - 1)] <= failed[3 * k - 1];
    }
  }

  /**
   Since the last success the clock of the (3k+1)-th recorded wrong PIN is read, and so its verdict given, no earlier
   in true time than the sum of the first k penalties after the clock of the third was read.
   */
  lemma {:induction false} RateBound(worlds: seq<World>, events: seq<Event>, i: nat, k: nat)
    requires Run(worlds, events) && i < |worlds| && k >= 1
    ensures var w := worlds[i];
            && (3 * k < |w.failed| ==> w.failed[2] + Total(k) <= w.failed[3 * k])
            && (3 * k < |w.verdicts| ==> 3 * k < |w.failed| && w.failed[2] + Total(k) <= w.verdicts[3 * k])
  {
    RunKeepsPaced(worlds, events, i);
    if 3 * k < |worlds[i].failed| {
      SpacedAddsUp(worlds[i].failed, worlds[i].now, k);
    }
  }

  /** From the seventh on every further cooldown is thirty minutes, so the bound grows without end. */
  lemma {:induction false} TotalClosed(k: nat)
    ensures k <= 6 ==> Total(k) == 30000 * (Pow2(k) - 1)
    ensures k >= 6 ==> Total(k) == 1890000 + 1800000 * (k - 6)
  {
    if k == 0 {
    } else {
      TotalClosed(k - 1);
      if k >= 7 {
        PenaltyCapped(k);
      } else {
        Pow2Grows(k - 1, 5);
        assert Pow2(1) == 2 && Pow2(3) == 8 && Pow2(5) == 32;
      }
    }
  }

  /** A reboot during a cooldown makes it start over in full. */
  lemma RebootRestartsCooldown(w: World, now: nat, clock: Clock)
    requires Paced(w) && w.attempts.duration.Some? && Later(w.now, w.clock, now, clock) && clock.boot != w.clock.boot
    ensures Checked(w.attempts, clock).1 == Some(Penalty(|w.failed| / 3))
  {
    PenaltyPastSaturation(|w.failed| / 3);
  }
}
