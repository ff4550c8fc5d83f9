/** The PIN attempt counter of one PIN kind: saturating counters, cooldown levels, and a clock that restarts on reboot. */
module PinCooldown {
  import opened PairingTypes

  type U8 = x: nat | x < 0x100

  type U64 = x: nat | x < 0x1_0000_0000_0000_0000

  const U32_MAX: nat := 0xFFFF_FFFF
  const U64_MAX: U64 := 0xFFFF_FFFF_FFFF_FFFF
  const FAILURES_BEFORE_COOLDOWN: U8 := 3
  const BASE_SECONDS: nat := 30
  const MAX_SECONDS: nat := 30 * 60

  function Min(a: nat, b: nat): nat {
    if a <= b then a else b
  }

  function Max(a: nat, b: nat): nat {
    if a <= b then b else a
  }

  function SaturatingAdd8(a: U8, b: U8): U8 {
    Min(a + b, 0xFF)
  }

  function SaturatingAdd64(a: U64, b: U64): U64 {
    Min(a + b, U64_MAX)
  }

  function SaturatingSub64(a: U64, b: U64): U64 {
    if a < b then 0 else a - b
  }

  // ----- how long a cooldown lasts

  function Pow2(n: nat): (p: nat)
    ensures p >= 1
  {
    if n == 0 then 1 else 2 * Pow2(n - 1)
  }

  /** 1 shifted left in 32 bits; nothing when the shift is as wide as the type. */
  function CheckedShiftLeft(shift: nat): Option<nat> {
    if shift < 32 then Some(Pow2(shift)) else None
  }

  function CooldownDuration(level: U8): U64 {
    if level == 0 then 0
    else
      var shifted := CheckedShiftLeft(level - 1);
      var multiplier := if shifted.Some? then shifted.value else U32_MAX;
      1000 * Min(BASE_SECONDS * multiplier, MAX_SECONDS)
  }

  /** Thirty seconds doubled per level, up to thirty minutes: for every level, without a machine width. */
  function Penalty(level: nat): nat {
    if level == 0 then 0 else Min(30000 * Pow2(level - 1), 1800000)
  }

  lemma {:induction false} Pow2Grows(m: nat, n: nat)
    requires m <= n
    ensures Pow2(m) <= Pow2(n)
  {
    if m < n {
      Pow2Grows(m, n - 1);
    }
  }

  /** From the seventh level on a cooldown lasts the full thirty minutes. */
  lemma PenaltyCapped(level: nat)
    requires level >= 7
    ensures Penalty(level) == 1800000
  {
    assert Pow2(1) == 2 && Pow2(3) == 8 && Pow2(6) == 64;
    Pow2Grows(6, level - 1);
  }

  /** The shift, the fallback and the saturating multiplication together compute the closed form, at every level. */
  lemma DurationIsPenalty(level: U8)
    ensures CooldownDuration(level) == Penalty(level)
  {
    if level > 32 {
      PenaltyCapped(level);
    }
  }

  lemma PenaltyPastSaturation(n: nat)
    ensures CooldownDuration(Min(n, 0xFF)) == Penalty(n)
  {
    DurationIsPenalty(Min(n, 0xFF));
    if n > 0xFF {
      PenaltyCapped(n);
      PenaltyCapped(0xFF);
    }
  }

  // ----- the stored attempt state

  /** What the operating system's monotonic clock shows: milliseconds since this boot, and which boot it is. */
  datatype Clock = Clock(boot: U64, elapsed: U64)

  datatype Attempts = Attempts(
    failed: U8,
    level: U8,
    started: Option<U64>,
    boot: Option<U64>,
    duration: Option<U64>)

  const FRESH := Attempts(0, 0, None, None, None)

  /** The state after looking at the clock, and what remains of a cooldown. */
  function Checked(a: Attempts, clock: Clock): (Attempts, Option<U64>) {
    if a.duration.None? then (a, None)
    else if a.boot != Some(clock.boot) || a.started.None? then
      (a.(boot := Some(clock.boot), started := Some(clock.elapsed)), a.duration)
    else
      var remaining := SaturatingSub64(SaturatingAdd64(a.started.value, a.duration.value), clock.elapsed);
      if remaining == 0 then (a.(started := None, boot := None, duration := None), None)
      else (a, Some(remaining))
  }

  /** The state after one more wrong PIN, and the cooldown it starts. */
  function Recorded(a: Attempts, clock: Clock): (Attempts, Option<U64>) {
    var failed := SaturatingAdd8(a.failed, 1);
    if failed < FAILURES_BEFORE_COOLDOWN then (a.(failed := failed), None)
    else
      var level := Max(SaturatingAdd8(a.level, 1), 1);
      var duration := CooldownDuration(level);
      (Attempts(0, level, Some(clock.elapsed), Some(clock.boot), Some(duration)), Some(duration))
  }

  datatype Verdict =
    | Verified
    | Incorrect
    | CooldownStarted(retryAfter: U64)
    | CooldownActive(retryAfter: U64)

  /** One undisturbed attempt: the state it leaves and its verdict. */
  function Attempted(a: Attempts, correct: bool, checkedAt: Clock, recordedAt: Clock): (Attempts, Verdict) {
    var (checked, remaining) := Checked(a, checkedAt);
    if remaining.Some? then (checked, CooldownActive(remaining.value))
    else if correct then (FRESH, Verified)
    else
      var (recorded, started) := Recorded(checked, recordedAt);
      (recorded, if started.Some? then CooldownStarted(started.value) else Incorrect)
  }

  /** A cooldown is over exactly when the boot it was anchored in has run on for its duration. */
  lemma CooldownEndsIff(a: Attempts, clock: Clock)
    requires a.started.Some? && a.duration.Some? ==> a.started.value + a.duration.value <= U64_MAX
    ensures Checked(a, clock).1.None? <==>
              || a.duration.None?
              || (a.boot == Some(clock.boot) && a.started.Some? && a.started.value + a.duration.value <= clock.elapsed)
    ensures Checked(a, clock).1.None? ==> Checked(a, clock).0.duration.None?
    ensures Checked(a, clock).1.Some? && a.boot != Some(clock.boot) ==> Checked(a, clock).1 == a.duration
    ensures a.duration.Some? && Checked(a, clock).1.Some? && Checked(a, clock).1.value > 0 ==>
              var later := Clock(clock.boot, SaturatingAdd64(clock.elapsed, Checked(a, clock).1.value));
              later.elapsed < U64_MAX ==> Checked(Checked(a, clock).0, later).1.None?
    ensures Checked(a, clock).0.failed == a.failed && Checked(a, clock).0.level == a.level
  {
  }

  /** The time reported as remaining is exact: within this boot the cooldown ends when it is over, and no earlier. */
  lemma RemainingIsExact(a: Attempts, clock: Clock, elapsed: U64)
    requires a.started.Some? && a.duration.Some? ==> a.started.value + a.duration.value <= U64_MAX
    requires Checked(a, clock).1.Some? && clock.elapsed <= elapsed < U64_MAX
    ensures Checked(Checked(a, clock).0, Clock(clock.boot, elapsed)).1.None? <==>
              elapsed - clock.elapsed >= Checked(a, clock).1.value
    ensures elapsed - clock.elapsed < Checked(a, clock).1.value && clock.elapsed + Checked(a, clock).1.value <= U64_MAX ==>
              Checked(Checked(a, clock).0, Clock(clock.boot, elapsed)).1 == Some(Checked(a, clock).1.value - (elapsed - clock.elapsed))
  {
  }

  // ----- the program's form

  class PinAttemptState {
    var failedAttempts: U8
    var cooldownLevel: U8
    var cooldownStarted: Option<U64>
    var cooldownBoot: Option<U64>
    var cooldownDuration: Option<U64>

    function View(): Attempts
      reads this
    {
      Attempts(failedAttempts, cooldownLevel, cooldownStarted, cooldownBoot, cooldownDuration)
    }

    constructor (a: Attempts)
      ensures View() == a
    {
      failedAttempts, cooldownLevel := a.failed, a.level;
      cooldownStarted, cooldownBoot, cooldownDuration := a.started, a.boot, a.duration;
    }

    method ActiveCooldownRemaining(clock: Clock) returns (remaining: Option<U64>)
      modifies this
      ensures (View(), remaining) == Checked(old(View()), clock)
    {
      if cooldownDuration.None? {
        return None;
      }
      var duration := cooldownDuration.value;
      if cooldownBoot != Some(clock.boot) || cooldownStarted.None? {
        cooldownBoot := Some(clock.boot);
        cooldownStarted := Some(clock.elapsed);
        cooldownDuration := Some(duration);
        return Some(duration);
      }
      var left := SaturatingSub64(SaturatingAdd64(cooldownStarted.value, duration), clock.elapsed);
      if left == 0 {
        cooldownStarted, cooldownBoot, cooldownDuration := None, None, None;
        return None;
      }
      remaining := Some(left);
    }

    method RecordFailure(clock: Clock) returns (started: Option<U64>)
      modifies this
      ensures (View(), started) == Recorded(old(View()), clock)
    {
      failedAttempts := SaturatingAdd8(failedAttempts, 1);
      if failedAttempts < FAILURES_BEFORE_COOLDOWN {
        return None;
      }
      failedAttempts := 0;
      cooldownLevel := Max(SaturatingAdd8(cooldownLevel, 1), 1);
      var duration := CooldownDuration(cooldownLevel);
      cooldownStarted := Some(clock.elapsed);
      cooldownBoot := Some(clock.boot);
      cooldownDuration := Some(duration);
      started := Some(duration);
    }
  }

  /** The stored entry of one PIN kind, behind its gate. */
  class PinGuard {
    var entry: Option<Attempts>
    const faulty: bool

    function View(): Attempts
      reads this
    {
      if entry.Some? then entry.value else FRESH
    }

    constructor (faulty: bool)
      ensures View() == FRESH && this.faulty == faulty
    {
      entry := None;
      this.faulty := faulty;
    }

    /** Saves, or with no value deletes, the entry; an error may be reported after it took effect. */
    method Store(a: Option<Attempts>) returns (r: Status)
      modifies this
      ensures entry == old(entry) || entry == a
      ensures r.Ok? ==> entry == a
      ensures r.Err? ==> faulty && r.error == StorageFailure
    {
      var failsBefore, failsAfter := *, *;
      if faulty && failsBefore {
        return Err(StorageFailure);
      }
      entry := a;
      r := if faulty && failsAfter then Err(StorageFailure) else DONE;
    }

    /** Checks the cooldown, then the PIN, then records the outcome. A verdict is given only once it is recorded. */
    method VerifyPin(correct: bool, checkedAt: Clock, recordedAt: Clock) returns (r: Result<Verdict>)
      modifies this
      ensures r.Ok? ==> (View(), r.value) == Attempted(old(View()), correct, checkedAt, recordedAt)
      ensures !faulty ==> r.Ok?
      ensures r.Ok? && r.value.Verified? ==> correct && entry.None?
      ensures r.Ok? && old(View()).duration.None? ==> (r.value.Verified? <==> correct) && !r.value.CooldownActive?
      ensures r.Ok? && !correct && old(View()).duration.None? ==>
                if old(View()).failed + 1 < 3 then r.value == Incorrect && View().failed == old(View()).failed + 1
                else r.value.CooldownStarted? && View().duration == Some(r.value.retryAfter)
      ensures r.Ok? && r.value.CooldownActive? ==> View().failed == old(View()).failed && View().level == old(View()).level
      ensures r.Err? ==> View() in {old(View()), Checked(old(View()), checkedAt).0, Attempted(old(View()), correct, checkedAt, recordedAt).0}
    {
      var state := new PinAttemptState(View());
      var remaining := state.ActiveCooldownRemaining(checkedAt);
      var _ :- Store(Some(state.View()));
      if remaining.Some? {
        return Ok(CooldownActive(remaining.value));
      }
      if correct {
        var _ :- Store(None);
        return Ok(Verified);
      }
      state := new PinAttemptState(View());
      var started := state.RecordFailure(recordedAt);
      var _ :- Store(Some(state.View()));
      r := Ok(if started.Some? then CooldownStarted(started.value) else Incorrect);
    }
  }
}
