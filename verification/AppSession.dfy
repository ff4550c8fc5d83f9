/** The phone app's session state: every method takes the generation lock, so each is one step. */
module AppSession {
  import opened PairingTypes
  import opened PinCooldown

  type Instant = nat

  datatype App = App(
    generation: U64,
    foreground: bool,
    /** The generation whose secrets are in memory. */
    secrets: Option<Gen>,
    unlockedAt: Option<Instant>,
    replacementAuthorizedAt: Option<Instant>,
    approvalKeyAuthenticatedAt: Option<Instant>,
    setupCode: Option<nat>,
    isSetup: bool,
    replacement: U64)

  const NEW_APP := App(0, false, None, None, None, None, None, false, 0)

  const WRAP: nat := 0x1_0000_0000_0000_0000

  /** fetch_add on an atomic counter wraps around. */
  function WrappingNext(n: U64): U64 {
    (n + 1) % WRAP
  }

  datatype ReplacementToken = ReplacementToken(generation: U64, replacement: U64)

  predicate Accepts(s: App, expected: U64) {
    expected == s.generation && s.foreground
  }

  function Locked(s: App): App {
    s.(generation := SaturatingAdd64(s.generation, 1), secrets := None, replacementAuthorizedAt := None,
       unlockedAt := None, approvalKeyAuthenticatedAt := None,
       setupCode := if s.isSetup then None else s.setupCode)
  }

  function ForegroundSet(s: App, foreground: bool): App {
    var t := s.(foreground := foreground);
    if foreground then t else Locked(t)
  }

  function Unlocked(s: App, secrets: Gen, now: Instant): App {
    s.(secrets := Some(secrets), unlockedAt := Some(now), generation := SaturatingAdd64(s.generation, 1))
  }

  function ReplacementBegun(s: App): App {
    s.(replacementAuthorizedAt := None, replacement := WrappingNext(s.replacement))
  }

  function ReplacementCancelled(s: App): App {
    s.(replacementAuthorizedAt := None, replacement := WrappingNext(s.replacement), setupCode := None)
  }

  predicate AcceptsReplacement(s: App, expected: ReplacementToken) {
    Accepts(s, expected.generation) && s.replacement == expected.replacement
  }

  class AppState {
    var secrets: Option<Gen>
    var isSetup: bool
    var pairingReplacementAuthorizedAt: Option<Instant>
    var unlockedAt: Option<Instant>
    var approvalKeyAuthenticatedAt: Option<Instant>
    var setupPairingCode: Option<nat>
    var sessionGeneration: U64
    var isForeground: bool
    var replacementGeneration: U64

    function View(): App
      reads this
    {
      App(sessionGeneration, isForeground, secrets, unlockedAt, pairingReplacementAuthorizedAt,
          approvalKeyAuthenticatedAt, setupPairingCode, isSetup, replacementGeneration)
    }

    predicate NothingKept()
      reads this
    {
      secrets.None? && unlockedAt.None? && pairingReplacementAuthorizedAt.None? && approvalKeyAuthenticatedAt.None?
    }

    constructor ()
      ensures View() == NEW_APP
    {
      secrets, isSetup, sessionGeneration, isForeground := None, false, 0, false;
      pairingReplacementAuthorizedAt, unlockedAt, approvalKeyAuthenticatedAt := None, None, None;
      setupPairingCode, replacementGeneration := None, 0;
    }

    method SetForeground(foreground: bool)
      modifies this
      ensures View() == ForegroundSet(old(View()), foreground)
      ensures isForeground == foreground && (!foreground ==> NothingKept())
    {
      isForeground := foreground;
      if !foreground {
        ClearSession();
      }
    }

    method Lock()
      modifies this
      ensures View() == Locked(old(View())) && NothingKept()
      ensures setupPairingCode == if isSetup then None else old(setupPairingCode)
    {
      ClearSession();
    }

    method ClearSession()
      modifies this
      ensures View() == Locked(old(View())) && NothingKept()
      ensures setupPairingCode == if isSetup then None else old(setupPairingCode)
    {
      sessionGeneration := SaturatingAdd64(sessionGeneration, 1);
      secrets := None;
      pairingReplacementAuthorizedAt := None;
      unlockedAt := None;
      approvalKeyAuthenticatedAt := None;
      if isSetup {
        setupPairingCode := None;
      }
    }

    method AuthenticationGeneration() returns (r: Result<U64>)
      ensures r.Ok? <==> isForeground
      ensures r.Ok? ==> Accepts(View(), r.value)
      ensures r.Err? ==> r.error == Refused && forall expected: U64 :: !Accepts(View(), expected)
    {
      r := if isForeground then Ok(sessionGeneration) else Err(Refused);
    }

    method MarkApprovalKeyAuthenticated(expected: U64, now: Instant) returns (r: Status)
      modifies this
      ensures r.Ok? <==> Accepts(old(View()), expected)
      ensures View() == if r.Ok? then old(View()).(approvalKeyAuthenticatedAt := Some(now)) else old(View())
    {
      if expected != sessionGeneration || !isForeground {
        return Err(Refused);
      }
      approvalKeyAuthenticatedAt := Some(now);
      r := DONE;
    }

    method CompleteUnlock(expected: U64, newSecrets: Gen, now: Instant) returns (r: Result<U64>)
      modifies this
      ensures r.Ok? <==> Accepts(old(View()), expected)
      ensures View() == if r.Ok? then Unlocked(old(View()), newSecrets, now) else old(View())
      ensures r.Ok? ==> r.value == sessionGeneration
    {
      if expected != sessionGeneration || !isForeground {
        return Err(Refused);
      }
      secrets := Some(newSecrets);
      unlockedAt := Some(now);
      sessionGeneration := SaturatingAdd64(sessionGeneration, 1);
      r := Ok(sessionGeneration);
    }

    method BeginPairingReplacement() returns (r: Result<ReplacementToken>)
      modifies this
      ensures r.Ok? <==> old(isForeground)
      ensures View() == if r.Ok? then ReplacementBegun(old(View())) else old(View())
      ensures r.Ok? ==> AcceptsReplacement(View(), r.value)
    {
      if !isForeground {
        return Err(Refused);
      }
      pairingReplacementAuthorizedAt := None;
      replacementGeneration := WrappingNext(replacementGeneration);
      r := Ok(ReplacementToken(sessionGeneration, replacementGeneration));
    }

    method CompletePairingReplacement(expected: ReplacementToken, now: Instant) returns (r: Status)
      modifies this
      ensures r.Ok? <==> AcceptsReplacement(old(View()), expected)
      ensures View() == if r.Ok? then old(View()).(replacementAuthorizedAt := Some(now)) else old(View())
    {
      if expected.generation != sessionGeneration || !isForeground {
        return Err(Refused);
      }
      if replacementGeneration != expected.replacement {
        return Err(Refused);
      }
      pairingReplacementAuthorizedAt := Some(now);
      r := DONE;
    }

    method CancelPairingReplacement()
      modifies this
      ensures View() == ReplacementCancelled(old(View()))
    {
      replacementGeneration := WrappingNext(replacementGeneration);
      pairingReplacementAuthorizedAt := None;
      setupPairingCode := None;
    }
  }

  // ----- traces of calls

  /** A call by any of the app's tasks; StoreActivated is the direct write at the end of a setup. */
  datatype Call =
    | SetForeground(foreground: bool)
    | Lock
    | Mark(expected: U64, now: Instant)
    | CompleteUnlock(expected: U64, secrets: Gen, now: Instant)
    | BeginReplacement
    | CompleteReplacement(token: ReplacementToken, now: Instant)
    | CancelReplacement
    | StoreActivated(secrets: Gen)

  function After(s: App, call: Call): App {
    match call
    case SetForeground(foreground) => ForegroundSet(s, foreground)
    case Lock => Locked(s)
    case Mark(expected, now) => if Accepts(s, expected) then s.(approvalKeyAuthenticatedAt := Some(now)) else s
    case CompleteUnlock(expected, secrets, now) => if Accepts(s, expected) then Unlocked(s, secrets, now) else s
    case BeginReplacement => if s.foreground then ReplacementBegun(s) else s
    case CompleteReplacement(token, now) => if AcceptsReplacement(s, token) then s.(replacementAuthorizedAt := Some(now)) else s
    case CancelReplacement => ReplacementCancelled(s)
    case StoreActivated(secrets) => s.(secrets := Some(secrets), isSetup := true)
  }

  function Replay(s: App, calls: seq<Call>): App {
    if calls == [] then s else After(Replay(s, calls[..|calls| - 1]), calls[|calls| - 1])
  }

  predicate Clears(call: Call) {
    call == Lock || call == SetForeground(false)
  }

  /** The call ends every authentication under way: a lock, a move to the background or a successful unlock. */
  predicate Supersedes(s: App, call: Call) {
    Clears(call) || (call.CompleteUnlock? && Accepts(s, call.expected))
  }

  /** No authentication was superseded. */
  predicate Quiet(s: App, calls: seq<Call>) {
    forall i :: 0 <= i < |calls| ==> !Supersedes(Replay(s, calls[..i]), calls[i])
  }

  /** How many replacements were begun or cancelled. */
  function Bumps(s: App, calls: seq<Call>): nat {
    if calls == [] then 0
    else
      var n := |calls| - 1;
      var last := calls[n];
      Bumps(s, calls[..n]) + if last.CancelReplacement? || (last.BeginReplacement? && Replay(s, calls[..n]).foreground) then 1 else 0
  }

  lemma {:induction false} QuietPrefix(s: App, calls: seq<Call>)
    requires calls != []
    ensures var before := calls[..|calls| - 1];
            Quiet(s, calls) <==> Quiet(s, before) && !Supersedes(Replay(s, before), calls[|calls| - 1])
  {
    var n := |calls| - 1;
    forall i | 0 <= i < n ensures calls[..n][..i] == calls[..i] && calls[..n][i] == calls[i] {
    }
  }

  lemma CallMovesGenerationIff(s: App, call: Call)
    ensures Supersedes(s, call) ==> After(s, call).generation == SaturatingAdd64(s.generation, 1)
    ensures !Supersedes(s, call) ==> After(s, call).generation == s.generation && (s.foreground ==> After(s, call).foreground)
  {
  }

  /** A generation stands still exactly while nothing supersedes it, or once it can count no further. */
  lemma {:induction false} GenerationStandsIff(s: App, calls: seq<Call>)
    ensures var t := Replay(s, calls);
            && t.generation >= s.generation
            && (Quiet(s, calls) ==> t.generation == s.generation && (s.foreground ==> t.foreground))
            && (!Quiet(s, calls) ==> t.generation > s.generation || s.generation == U64_MAX)
  {
    if calls != [] {
      var before := calls[..|calls| - 1];
      GenerationStandsIff(s, before);
      QuietPrefix(s, calls);
      CallMovesGenerationIff(Replay(s, before), calls[|calls| - 1]);
    }
  }

  /**
   Stale authentication never publishes: a token is honoured exactly when nothing superseded it since it was
   issued, short of a counter that has reached its last value.
   */
  lemma {:induction false} UnlockTokenHonouredIff(s: App, calls: seq<Call>)
    requires s.foreground
    ensures var t := Replay(s, calls);
            Accepts(t, s.generation) <==> Quiet(s, calls) || (s.generation == U64_MAX && t.foreground)
  {
    GenerationStandsIff(s, calls);
    var t := Replay(s, calls);
    if s.generation == U64_MAX {
      assert t.generation == U64_MAX;
    }
  }

  /** At the last value of the counter a lock no longer invalidates a token. */
  lemma SaturatedTokenOutlivesALock()
    ensures var s := NEW_APP.(generation := U64_MAX, foreground := true);
            Accepts(Replay(s, [Lock]), s.generation)
  {
    var s := NEW_APP.(generation := U64_MAX, foreground := true);
    assert Replay(s, []) == s;
    assert [Lock][..0] == [];
    assert Replay(s, [Lock]) == Locked(s);
  }

  lemma WrappingSteps(a: nat, b: nat)
    ensures ((a + b) % WRAP + 1) % WRAP == (a + b + 1) % WRAP
  {
  }

  lemma {:induction false} ReplacementCounts(s: App, calls: seq<Call>)
    ensures Replay(s, calls).replacement == (s.replacement + Bumps(s, calls)) % WRAP
  {
    if calls != [] {
      ReplacementCounts(s, calls[..|calls| - 1]);
      WrappingSteps(s.replacement, Bumps(s, calls[..|calls| - 1]));
    }
  }

  lemma ShiftedBy(a: nat, b: nat)
    requires a < WRAP
    ensures (a + b) % WRAP == a <==> b % WRAP == 0
  {
  }

  lemma {:induction false} ReplacementStandsIff(s: App, calls: seq<Call>)
    ensures Replay(s, calls).replacement == s.replacement <==> Bumps(s, calls) % WRAP == 0
  {
    ReplacementCounts(s, calls);
    ShiftedBy(s.replacement, Bumps(s, calls));
  }

  /** For a replacement no other one may have been begun or cancelled either; the count of those wraps at 2^64. */
  lemma {:induction false} ReplacementTokenHonouredIff(s: App, calls: seq<Call>)
    requires s.foreground
    ensures var t := Replay(s, calls);
            AcceptsReplacement(t, ReplacementToken(s.generation, s.replacement)) <==>
              (Quiet(s, calls) || (s.generation == U64_MAX && t.foreground)) && Bumps(s, calls) % WRAP == 0
  {
    UnlockTokenHonouredIff(s, calls);
    ReplacementStandsIff(s, calls);
  }

  // ----- what is in memory

  /** Secrets and authorizations exist only in an unlocked app in the foreground. */
  predicate Guarded(s: App) {
    && (s.secrets.Some? ==> s.unlockedAt.Some?)
    && (s.secrets.Some? || s.unlockedAt.Some? || s.replacementAuthorizedAt.Some? || s.approvalKeyAuthenticatedAt.Some? ==>
          s.foreground)
  }

  /** The direct write at the end of a setup is the only exception, and the next lock ends it. */
  lemma {:induction false} SecretsAreGuarded(s: App, calls: seq<Call>)
    requires Guarded(s)
    requires forall i :: 0 <= i < |calls| && calls[i].StoreActivated? ==> exists j :: i < j < |calls| && Clears(calls[j])
    ensures Guarded(Replay(s, calls))
    decreases |calls|
  {
    if calls != [] {
      var n := |calls| - 1;
      if Clears(calls[n]) {
        NothingPublishedInBackground(s, calls[..n]);
      } else {
        SecretsAreGuarded(s, calls[..n]);
      }
    }
  }

  /** Apart from that write nothing at all is in memory in the background. */
  lemma {:induction false} NothingPublishedInBackground(s: App, calls: seq<Call>)
    requires Guarded(s)
    ensures var t := Replay(s, calls);
            t.unlockedAt.Some? || t.replacementAuthorizedAt.Some? || t.approvalKeyAuthenticatedAt.Some? ==> t.foreground
  {
    if calls != [] {
      NothingPublishedInBackground(s, calls[..|calls| - 1]);
    }
  }

  // ----- where it came from, and what takes it away

  /** What a call can put in memory: the moment of an authorization or an unlock, or the secrets of a generation. */
  datatype Item = ReplacementAuthorization | KeyAuthentication | UnlockTime | SecretsInMemory

  function InMemory(s: App, item: Item): Option<nat> {
    match item
    case ReplacementAuthorization => s.replacementAuthorizedAt
    case KeyAuthentication => s.approvalKeyAuthenticatedAt
    case UnlockTime => s.unlockedAt
    case SecretsInMemory => s.secrets
  }

  /** The call, made in s with a token that is current there, puts v in memory. */
  predicate Publishes(s: App, item: Item, call: Call, v: nat) {
    match item
    case ReplacementAuthorization =>
      call == CompleteReplacement(ReplacementToken(s.generation, s.replacement), v) && s.foreground
    case KeyAuthentication =>
      call == Mark(s.generation, v) && s.foreground
    case UnlockTime =>
      call.CompleteUnlock? && call.expected == s.generation && s.foreground && call.now == v
    case SecretsInMemory =>
      || (call.CompleteUnlock? && call.expected == s.generation && s.foreground && call.secrets == v)
      || call == StoreActivated(v)
  }

  /** A lock or a move to the background takes everything; a replacement authorization also ends with the next attempt at one. */
  predicate Revokes(s: App, item: Item, call: Call) {
    || call == Lock || call == SetForeground(false)
    || (item.ReplacementAuthorization? && (call == CancelReplacement || (call == BeginReplacement && s.foreground)))
  }

  ghost predicate Spares(s: App, item: Item, call: Call) {
    !Revokes(s, item, call) && forall w: nat :: !Publishes(s, item, call, w)
  }

  /** Call i put v in memory, and no later one took or replaced it. */
  ghost predicate StandsSince(s: App, calls: seq<Call>, item: Item, i: nat, v: nat) {
    && i < |calls| && Publishes(Replay(s, calls[..i]), item, calls[i], v)
    && forall j :: i < j < |calls| ==> Spares(Replay(s, calls[..j]), item, calls[j])
  }

  lemma CallChangesMemory(s: App, item: Item, call: Call)
    ensures Revokes(s, item, call) ==> InMemory(After(s, call), item).None? && forall v: nat :: !Publishes(s, item, call, v)
    ensures forall v: nat :: Publishes(s, item, call, v) ==> InMemory(After(s, call), item) == Some(v)
    ensures Spares(s, item, call) ==> InMemory(After(s, call), item) == InMemory(s, item)
  {
    if Spares(s, item, call) {
      match call {
        case Mark(_, now) => assert !Publishes(s, item, call, now);
        case CompleteReplacement(_, now) => assert !Publishes(s, item, call, now);
        case CompleteUnlock(_, secrets, now) => assert !Publishes(s, item, call, now) && !Publishes(s, item, call, secrets);
        case StoreActivated(secrets) => assert !Publishes(s, item, call, secrets);
        case _ =>
      }
    }
  }

  lemma {:induction false} StandsOnOne(s: App, calls: seq<Call>, item: Item, i: nat, v: nat)
    requires calls != []
    ensures var n := |calls| - 1;
            StandsSince(s, calls, item, i, v) <==>
              if i == n then Publishes(Replay(s, calls[..n]), item, calls[n], v)
              else StandsSince(s, calls[..n], item, i, v) && Spares(Replay(s, calls[..n]), item, calls[n])
  {
    var n := |calls| - 1;
    forall j | 0 <= j < n ensures calls[..n][..j] == calls[..j] && calls[..n][j] == calls[j] {
    }
  }

  /** Authorizations, unlocks and secrets are in memory exactly from the call that puts them there to one that takes or replaces them. */
  lemma {:induction false} InMemoryIff(s: App, calls: seq<Call>, item: Item, v: nat)
    requires InMemory(s, item).None?
    ensures InMemory(Replay(s, calls), item) == Some(v) <==> exists i :: StandsSince(s, calls, item, i, v)
  {
    if calls != [] {
      var n := |calls| - 1;
      var t := Replay(s, calls[..n]);
      InMemoryIff(s, calls[..n], item, v);
      CallChangesMemory(t, item, calls[n]);
      forall i: nat {
        StandsOnOne(s, calls, item, i, v);
      }
      if InMemory(Replay(s, calls), item) == Some(v) {
        if Publishes(t, item, calls[n], v) {
          assert StandsSince(s, calls, item, n, v);
        } else {
          var i :| StandsSince(s, calls[..n], item, i, v);
          assert StandsSince(s, calls, item, i, v);
        }
      }
    }
  }

  predicate EndsSetupCode(s: App, call: Call) {
    call == CancelReplacement || ((call == Lock || call == SetForeground(false)) && s.isSetup)
  }

  lemma CallEndsSetupCodeIff(s: App, call: Call)
    ensures After(s, call).setupCode == if EndsSetupCode(s, call) then None else s.setupCode
    ensures After(s, call).isSetup == (s.isSetup || call.StoreActivated?)
  {
  }

  ghost predicate CodeEnded(s: App, calls: seq<Call>) {
    exists i :: 0 <= i < |calls| && EndsSetupCode(Replay(s, calls[..i]), calls[i])
  }

  lemma {:induction false} CodeEndedOnOne(s: App, calls: seq<Call>)
    requires calls != []
    ensures var n := |calls| - 1;
            CodeEnded(s, calls) <==> CodeEnded(s, calls[..n]) || EndsSetupCode(Replay(s, calls[..n]), calls[n])
  {
    var n := |calls| - 1;
    forall i | 0 <= i < n ensures calls[..n][..i] == calls[..i] && calls[..n][i] == calls[i] {
    }
    if CodeEnded(s, calls[..n]) {
      var i :| 0 <= i < n && EndsSetupCode(Replay(s, calls[..n][..i]), calls[..n][i]);
      assert EndsSetupCode(Replay(s, calls[..i]), calls[i]);
    }
  }

  /** The displayed verification code survives exactly until a replacement is cancelled or an app already set up is locked. */
  lemma {:induction false} SetupCodeKeptIff(s: App, calls: seq<Call>)
    ensures Replay(s, calls).setupCode == if CodeEnded(s, calls) then None else s.setupCode
  {
    if calls != [] {
      var n := |calls| - 1;
      SetupCodeKeptIff(s, calls[..n]);
      CodeEndedOnOne(s, calls);
      CallEndsSetupCodeIff(Replay(s, calls[..n]), calls[n]);
    }
  }

  /** And an app is set up once a setup has been activated in it. */
  lemma {:induction false} IsSetupIff(s: App, calls: seq<Call>)
    ensures Replay(s, calls).isSetup <==> s.isSetup || exists i :: 0 <= i < |calls| && calls[i].StoreActivated?
  {
    if calls != [] {
      var n := |calls| - 1;
      IsSetupIff(s, calls[..n]);
      CallEndsSetupCodeIff(Replay(s, calls[..n]), calls[n]);
      assert forall i :: 0 <= i < n ==> calls[..n][i] == calls[i];
    }
  }
}
