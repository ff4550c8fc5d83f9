/**
 The prompt and the pairing together: the secrets in the app's memory are those of the active generation when they are
 loaded, and the one desktop that waits for a share does nothing else meanwhile.
 */
module OneDesktop {
  import opened PairingTypes
  import opened PinCooldown
  import opened ApprovalSlot
  import opened ApprovalSafety
  import opened ApprovalExchange
  import A = AppSession
  import PP = PairingProtocol
  import PI = PairingInvariant
  import PS = PairingSteps
  import PT = PairingTheorems
  import D = DesktopDisk

  datatype Joint = Joint(
    pairing: PP.Sys,
    prompt: Sys,
    /** The desktop waits for the share that unlocks its vault. */
    waiting: Option<Request>,
    /** Every request the desktop ever made; the phone admits no others. */
    asked: set<Request>)

  const BEGINNING := Joint(PP.START, BOOTED, None, {})

  datatype Move =
    | Phone(e: PP.Event)
    | Prompt(p: Event)
    | Memory(call: A.Call)
    | Reboots
    | Desktop(e: PP.Event)
    | Asks(request: Request)
    | Accepts(response: Response, now: U64, password: Password)
    | GivesUp

  predicate ConcernsMemory(e: PP.Event) {
    e.PhoneUnlocks? || e.PhoneLocks? || e.PhoneRestarts?
  }

  /** The vault and the pairing record that the desktop found when it asked. */
  predicate ReadyToUnlock(s: PP.Sys, pairing: Gen) {
    && s.process.Down? && D.Recovered(s.disk) && s.disk.vault.Some?
    && s.disk.record.Some? && s.disk.record.value.gen == pairing
  }

  /** What the process does with a share of generation h and a password. */
  function Opened(s: PP.Sys, h: Gen, password: Password): PP.Sys
    requires s.disk.vault.Some? && s.disk.record.Some? && h in s.minted
  {
    var vault, share := s.disk.vault.value, s.minted[h].share;
    var local := LocalSecret(password, vault.salt);
    var contents := Open(vault, VaultKey(local, share));
    if contents.None? then s
    else s.(process := PP.Idle(
              PP.Session(s.disk.record.value.gen, local, share, VaultKey(local, share), vault.salt, contents.value), true))
  }

  ghost predicate Step(j: Joint, m: Move, k: Joint) {
    match m
    case Phone(e) =>
      && PP.PhoneStep(j.pairing, e, k.pairing) && !ConcernsMemory(e)
      && k == j.(pairing := k.pairing, prompt := j.prompt.(keys := k.pairing.phone.keys))
    case Prompt(e) =>
      && ApprovalSlot.Step(j.prompt, e, k.prompt) && !e.KeysChange? && !e.Restarts?
      && k.prompt.app.secrets == j.prompt.app.secrets && (e.Admits? ==> e.request in j.asked)
      && k == j.(prompt := k.prompt)
    case Memory(call) =>
      && ApprovalSlot.Step(j.prompt, AppCalled(call), k.prompt)
      && PP.PhoneStep(j.pairing, if k.prompt.app.secrets.None? then PP.PhoneLocks else PP.PhoneUnlocks, k.pairing)
      && k.pairing.memory == k.prompt.app.secrets
      && k == j.(pairing := k.pairing, prompt := k.prompt)
    case Reboots =>
      && ApprovalSlot.Step(j.prompt, Restarts, k.prompt) && PP.PhoneStep(j.pairing, PP.PhoneRestarts, k.pairing)
      && k == j.(pairing := k.pairing, prompt := k.prompt)
    case Desktop(e) =>
      && j.waiting.None? && PP.DesktopStep(j.pairing, e, k.pairing) && PI.Careful(j.pairing, e) && !e.DesktopUnlocks?
      && k == j.(pairing := k.pairing)
    case Asks(request) =>
      && j.waiting.None? && request !in j.asked
      && (request.shareRequested ==> ReadyToUnlock(j.pairing, request.pairing))
      && k == j.(asked := j.asked + {request}, waiting := if request.shareRequested then Some(request) else None)
    case Accepts(response, now, password) =>
      && j.waiting.Some?
      && var verdict := ValidateResponse(j.prompt.signed, j.waiting.value.pairing, j.waiting.value, response, now);
         && verdict.Approved? && verdict.share.Some? && verdict.share.value in j.pairing.minted
         && j.pairing.disk.vault.Some? && j.pairing.disk.record.Some?
         && k == j.(pairing := Opened(j.pairing, verdict.share.value, password), waiting := None)
    case GivesUp =>
      k == j.(waiting := None)
  }

  /** A run in which sessions that write belong to the paired generation. */
  ghost predicate Run(states: seq<Joint>, moves: seq<Move>) {
    && |states| == |moves| + 1 && states[0] == BEGINNING
    && forall i :: 0 <= i < |moves| ==> Step(states[i], moves[i], states[i + 1])
  }

  // ----- no other share on its way

  predicate Fits(secrets: Option<Gen>, g: Gen) {
    secrets.None? || secrets == Some(g)
  }

  /** A task that will sign for the request with the pairing's key copies, or has copied, the pairing's own share. */
  ghost predicate OwnTask(s: Sys, task: Task, request: Request) {
    match task
    case Equipped(identity, _, key) => OwnPlan(s, identity, key, request)
    case Judged(identity, _, key, _) => OwnPlan(s, identity, key, request)
    case Approving(p, key, _, _) => p.request == request && key == request.pairing ==> Fits(s.app.secrets, request.pairing)
    case Sharing(p, key, _, _, share, _) => p.request == request && key == request.pairing ==> share == Some(request.pairing)
    case Signing(p, key, _, _, share, _) => p.request == request && key == request.pairing ==> share == Some(request.pairing)
    case _ => true
  }

  ghost predicate OwnPlan(s: Sys, identity: Identity, key: Gen, request: Request) {
    && identity.instance in s.instances
    && (s.instances[identity.instance].request == request && key == request.pairing ==> Fits(s.app.secrets, request.pairing))
  }

  ghost predicate OwnSent(s: Sys, sent: Sent, request: Request) {
    && sent.instance in s.instances
    && (sent.approved && s.instances[sent.instance].request == request && sent.key == request.pairing ==>
          sent.share == Some(request.pairing))
  }

  ghost predicate Own(s: Sys, request: Request) {
    && (forall i :: i in s.tasks ==> OwnTask(s, s.tasks[i], request))
    && (forall n :: 0 <= n < |s.sent| ==> OwnSent(s, s.sent[n], request))
  }

  /** Instances stay what they are, and memory stays with the pairing. */
  ghost predicate Carries(s: Sys, t: Sys, request: Request) {
    && (forall i :: i in s.instances ==> i in t.instances && t.instances[i] == s.instances[i])
    && (Fits(s.app.secrets, request.pairing) ==> Fits(t.app.secrets, request.pairing))
  }

  lemma {:induction false} OnlyKeysChangeKeys(s: Sys, e: Event, t: Sys)
    requires ApprovalSlot.Step(s, e, t) && !e.KeysChange?
    ensures t.keys == s.keys
  {
  }

  lemma {:induction false} OwnTaskStays(s: Sys, t: Sys, task: Task, request: Request)
    requires OwnTask(s, task, request) && Carries(s, t, request)
    ensures OwnTask(t, task, request)
  {
  }

  lemma {:induction false} TakenIsOwn(s: Sys, i: nat, t: Sys, request: Request)
    requires Inv(s) && Taking(s, i, t) && i in t.tasks && OwnTask(s, s.tasks[i], request) && Carries(s, t, request)
    ensures OwnTask(t, t.tasks[i], request)
  {
    assert PendingOk(s, s.slot.value);
  }

  lemma {:induction false} CopiedIsOwn(s: Sys, i: nat, t: Sys, request: Request)
    requires SharingStep(s, i, t) && i in t.tasks && OwnTask(s, s.tasks[i], request) && request.shareRequested
    ensures OwnTask(t, t.tasks[i], request)
  {
  }

  /** Steps of an approval that leave its key and its request as they are. */
  lemma {:induction false} CheckedIsOwn(s: Sys, e: Event, t: Sys, request: Request)
    requires ApprovalSlot.Step(s, e, t) && (e.Equips? || e.Judges? || e.Confirms?) && e.i in s.tasks && e.i in t.tasks
    requires TaskOk(s, s.tasks[e.i]) && OwnTask(s, s.tasks[e.i], request)
    ensures OwnTask(t, t.tasks[e.i], request)
  {
    match e {
      case Equips(_) =>
      case Judges(_, _) =>
      case Confirms(_) =>
    }
  }

  lemma {:induction false} NewTaskHasNoKey(s: Sys, e: Event, t: Sys)
    requires ApprovalSlot.Step(s, e, t) && !Ambient(e) && e.i in t.tasks
    requires !e.Equips? && !e.Judges? && !e.Confirms? && !e.Takes? && !e.Shares?
    ensures t.tasks[e.i].Captured? || t.tasks[e.i].Denying? || t.tasks[e.i].PuttingBack?
  {
  }

  /** The one task a step changes. */
  lemma {:induction false} OwnTaskMoves(s: Sys, e: Event, t: Sys, request: Request)
    requires Inv(s) && ApprovalSlot.Step(s, e, t) && !Ambient(e) && e.i in t.tasks && request.shareRequested
    requires Own(s, request) && Carries(s, t, request)
    ensures OwnTask(t, t.tasks[e.i], request)
  {
    if e.Takes? {
      TakenIsOwn(s, e.i, t, request);
    } else if e.Shares? {
      CopiedIsOwn(s, e.i, t, request);
    } else if e.Equips? || e.Judges? || e.Confirms? {
      CheckedIsOwn(s, e, t, request);
    } else {
      NewTaskHasNoKey(s, e, t);
    }
  }

  lemma {:induction false} NewAnswerIsOwn(s: Sys, i: nat, timestamp: U64, t: Sys, request: Request)
    requires SigningStep(s, i, Accepted, timestamp, t) && request.shareRequested
    requires TaskOk(s, s.tasks[i]) && OwnTask(s, s.tasks[i], request)
    ensures |t.sent| == |s.sent| + 1 && OwnSent(t, t.sent[|s.sent|], request)
  {
  }

  lemma {:induction false} OwnSentGrows(s: Sys, i: nat, outcome: Signed, timestamp: U64, t: Sys, request: Request)
    requires SigningStep(s, i, outcome, timestamp, t) && request.shareRequested
    requires TaskOk(s, s.tasks[i]) && OwnTask(s, s.tasks[i], request)
    requires forall n :: 0 <= n < |s.sent| ==> OwnSent(s, s.sent[n], request)
    ensures forall n :: 0 <= n < |t.sent| ==> OwnSent(t, t.sent[n], request)
  {
    if outcome.Accepted? {
      NewAnswerIsOwn(s, i, timestamp, t, request);
    }
    forall n | 0 <= n < |t.sent| ensures OwnSent(t, t.sent[n], request) {
      if n < |s.sent| {
        assert t.sent[n] == s.sent[n] && OwnSent(s, s.sent[n], request);
      }
    }
  }

  lemma {:induction false} StepKeepsOwn(s: Sys, e: Event, t: Sys, request: Request)
    requires Inv(s) && ApprovalSlot.Step(s, e, t) && request.shareRequested
    requires Own(s, request) && (Fits(s.app.secrets, request.pairing) ==> Fits(t.app.secrets, request.pairing))
    ensures Own(t, request)
  {
    InstancesStay(s, e, t);
    forall i | i in t.tasks ensures OwnTask(t, t.tasks[i], request) {
      if Ambient(e) {
        AmbientStepsKeepTasks(s, e, t, i);
        OwnTaskStays(s, t, s.tasks[i], request);
      } else if e.i == i {
        OwnTaskMoves(s, e, t, request);
      } else {
        OtherTasksStay(s, e, t, i);
        OwnTaskStays(s, t, s.tasks[i], request);
      }
    }
    if e.Signs? {
      OwnSentGrows(s, e.i, e.outcome, e.timestamp, t, request);
    } else {
      OnlySigningSends(s, e, t);
      forall n | 0 <= n < |t.sent| ensures OwnSent(t, t.sent[n], request) {
        assert OwnSent(s, s.sent[n], request);
      }
    }
  }

  /** A request nobody has admitted yet. */
  lemma {:induction false} FreshRequestIsOwn(s: Sys, request: Request)
    requires Inv(s) && forall i :: i in s.instances ==> s.instances[i].request != request
    ensures Own(s, request)
  {
    forall i | i in s.tasks ensures OwnTask(s, s.tasks[i], request) {
      assert TaskOk(s, s.tasks[i]);
    }
  }

  // ----- the invariant

  ghost predicate InStep(j: Joint) {
    && j.prompt.app.secrets == j.pairing.memory && j.prompt.keys == j.pairing.phone.keys
    && forall i :: i in j.prompt.instances ==> j.prompt.instances[i].request in j.asked
  }

  /** While the desktop waits, nothing can move the active generation away from the one it waits for. */
  ghost predicate Waits(j: Joint) {
    j.waiting.Some? ==>
      && j.waiting.value in j.asked && j.waiting.value.shareRequested
      && ReadyToUnlock(j.pairing, j.waiting.value.pairing) && Own(j.prompt, j.waiting.value)
  }

  ghost predicate JointInv(j: Joint) {
    PI.Inv(j.pairing) && Inv(j.prompt) && InStep(j) && Waits(j)
  }

  lemma {:induction false} ActiveWhileWaiting(s: PP.Sys, pairing: Gen)
    requires PI.Inv(s) && ReadyToUnlock(s, pairing)
    ensures s.phone.active == Some(pairing) && pairing in s.minted
    ensures Unseal(s.disk.vault.value, s.password, s.minted[pairing].share) == Some(s.disk.vault.value.plaintext)
  {
    assert PI.PasswordOk(s, s.disk.vault.value);
  }

  lemma {:induction false} PhoneLeavesDesktopAlone(s: PP.Sys, e: PP.Event, t: PP.Sys)
    requires PP.PhoneStep(s, e, t)
    ensures t.disk == s.disk && t.process == s.process && (!ConcernsMemory(e) ==> t.memory == s.memory)
    ensures e.PhoneUnlocks? ==> t.memory == s.phone.active
    ensures e.PhoneLocks? || e.PhoneRestarts? ==> t.memory.None?
  {
  }

  lemma {:induction false} PhoneKeeps(j: Joint, m: Move, k: Joint)
    requires JointInv(j) && Step(j, m, k) && m.Phone?
    ensures JointInv(k)
  {
    PS.PhoneStepKeepsInv(j.pairing, m.e, k.pairing);
    PhoneLeavesDesktopAlone(j.pairing, m.e, k.pairing);
    assert ApprovalSlot.Step(j.prompt, KeysChange(k.prompt.keys), k.prompt);
    StepKeepsInv(j.prompt, KeysChange(k.prompt.keys), k.prompt);
    if k.waiting.Some? {
      StepKeepsOwn(j.prompt, KeysChange(k.prompt.keys), k.prompt, k.waiting.value);
    }
  }

  lemma {:induction false} PromptKeeps(j: Joint, m: Move, k: Joint)
    requires JointInv(j) && Step(j, m, k) && m.Prompt?
    ensures JointInv(k)
  {
    StepKeepsInv(j.prompt, m.p, k.prompt);
    InstancesStay(j.prompt, m.p, k.prompt);
    OnlyKeysChangeKeys(j.prompt, m.p, k.prompt);
    if k.waiting.Some? {
      StepKeepsOwn(j.prompt, m.p, k.prompt, k.waiting.value);
    }
  }

  /** Memory changes hands between the two models: what it loads while a desktop waits is that desktop's generation. */
  lemma {:induction false} ReloadKeeps(j: Joint, e: Event, p: PP.Event, k: Joint)
    requires JointInv(j) && ApprovalSlot.Step(j.prompt, e, k.prompt) && PP.PhoneStep(j.pairing, p, k.pairing)
    requires !e.KeysChange? && !e.Admits? && ConcernsMemory(p) && k.prompt.app.secrets == k.pairing.memory
    requires k == j.(pairing := k.pairing, prompt := k.prompt) && k.pairing.phone == j.pairing.phone
    ensures JointInv(k)
  {
    StepKeepsInv(j.prompt, e, k.prompt);
    InstancesStay(j.prompt, e, k.prompt);
    OnlyKeysChangeKeys(j.prompt, e, k.prompt);
    PS.PhoneStepKeepsInv(j.pairing, p, k.pairing);
    PhoneLeavesDesktopAlone(j.pairing, p, k.pairing);
    if k.waiting.Some? {
      ActiveWhileWaiting(j.pairing, k.waiting.value.pairing);
      StepKeepsOwn(j.prompt, e, k.prompt, k.waiting.value);
    }
  }

  lemma {:induction false} MemoryKeeps(j: Joint, m: Move, k: Joint)
    requires JointInv(j) && Step(j, m, k) && m.Memory?
    ensures JointInv(k)
  {
    var p := if k.prompt.app.secrets.None? then PP.PhoneLocks else PP.PhoneUnlocks;
    MemoryMovesOnly(j.pairing, p, k.pairing);
    ReloadKeeps(j, AppCalled(m.call), p, k);
  }

  lemma {:induction false} RebootKeeps(j: Joint, m: Move, k: Joint)
    requires JointInv(j) && Step(j, m, k) && m.Reboots?
    ensures JointInv(k)
  {
    MemoryMovesOnly(j.pairing, PP.PhoneRestarts, k.pairing);
    PhoneLeavesDesktopAlone(j.pairing, PP.PhoneRestarts, k.pairing);
    ReloadKeeps(j, Restarts, PP.PhoneRestarts, k);
  }

  lemma {:induction false} MemoryMovesOnly(s: PP.Sys, e: PP.Event, t: PP.Sys)
    requires PP.PhoneStep(s, e, t) && ConcernsMemory(e)
    ensures t.phone == s.phone
  {
  }

  lemma {:induction false} DesktopKeeps(j: Joint, m: Move, k: Joint)
    requires JointInv(j) && Step(j, m, k) && m.Desktop?
    ensures JointInv(k)
  {
    PS.DesktopStepKeepsInv(j.pairing, m.e, k.pairing);
    PT.DesktopLeavesPhoneAlone(j.pairing, m.e, k.pairing);
  }

  lemma {:induction false} AskingKeeps(j: Joint, m: Move, k: Joint)
    requires JointInv(j) && Step(j, m, k) && m.Asks?
    ensures JointInv(k)
  {
    FreshRequestIsOwn(j.prompt, m.request);
  }

  lemma {:induction false} AcceptedIsOwn(j: Joint, response: Response, now: U64)
    requires Inv(j.prompt) && Waits(j) && j.waiting.Some?
    requires ValidateResponse(j.prompt.signed, j.waiting.value.pairing, j.waiting.value, response, now).Approved?
    ensures ValidateResponse(j.prompt.signed, j.waiting.value.pairing, j.waiting.value, response, now)
              == Approved(Some(j.waiting.value.pairing))
  {
    var request := j.waiting.value;
    var n := AcceptanceRestsOn(j.prompt, request.pairing, request, response, now);
    assert OwnSent(j.prompt, j.prompt.sent[n], request);
  }

  lemma {:induction false} OpeningIsAnUnlock(s: PP.Sys, g: Gen, password: Password)
    requires PI.Inv(s) && ReadyToUnlock(s, g)
    ensures g in s.minted
    ensures var t := Opened(s, g, password);
            && (t == s || PP.DesktopStep(s, PP.DesktopUnlocks(password), t))
            && (password == s.password ==> t.process.Idle? && t.process.session.plaintext == s.disk.vault.value.plaintext)
  {
    ActiveWhileWaiting(s, g);
  }

  /** The exchange carries out the unlock that the pairing model knows as one step. */
  lemma {:induction false} AcceptanceIsAnUnlock(j: Joint, m: Move, k: Joint)
    requires JointInv(j) && Step(j, m, k) && m.Accepts?
    ensures k.pairing == j.pairing || PP.DesktopStep(j.pairing, PP.DesktopUnlocks(m.password), k.pairing)
    ensures m.password == j.pairing.password ==>
              && k.pairing.process.Idle? && k.pairing.process.session.plaintext == j.pairing.disk.vault.value.plaintext
  {
    AcceptedIsOwn(j, m.response, m.now);
    OpeningIsAnUnlock(j.pairing, j.waiting.value.pairing, m.password);
  }

  lemma {:induction false} AcceptanceKeeps(j: Joint, m: Move, k: Joint)
    requires JointInv(j) && Step(j, m, k) && m.Accepts?
    ensures JointInv(k)
  {
    AcceptanceIsAnUnlock(j, m, k);
    if k.pairing != j.pairing {
      PS.DesktopStepKeepsInv(j.pairing, PP.DesktopUnlocks(m.password), k.pairing);
    }
  }

  lemma {:induction false} MoveKeepsInv(j: Joint, m: Move, k: Joint)
    requires JointInv(j) && Step(j, m, k)
    ensures JointInv(k)
  {
    match m {
      case Phone(_) => PhoneKeeps(j, m, k);
      case Prompt(_) => PromptKeeps(j, m, k);
      case Memory(_) => MemoryKeeps(j, m, k);
      case Reboots => RebootKeeps(j, m, k);
      case Desktop(_) => DesktopKeeps(j, m, k);
      case Asks(_) => AskingKeeps(j, m, k);
      case Accepts(_, _, _) => AcceptanceKeeps(j, m, k);
      case GivesUp =>
    }
  }

  lemma {:induction false} RunKeepsJointInv(states: seq<Joint>, moves: seq<Move>, i: nat)
    requires Run(states, moves) && i < |states|
    ensures JointInv(states[i])
  {
    if i == 0 {
      PI.StartOk();
    } else {
      RunKeepsJointInv(states, moves, i - 1);
      MoveKeepsInv(states[i - 1], moves[i - 1], states[i]);
    }
  }

  // ----- the guarantee

  /**
   With one desktop and one phone, through every interleaving of prompts, locks, unlocks, replacements, crashes and network:
   a share that a waiting desktop accepts is the one of the generation it is paired with, and opens its vault.
   */
  lemma {:induction false} AcceptedShareIsOwn(states: seq<Joint>, moves: seq<Move>, i: nat, response: Response, now: U64)
    requires Run(states, moves) && i < |states| && states[i].waiting.Some?
    requires ValidateResponse(states[i].prompt.signed, states[i].waiting.value.pairing, states[i].waiting.value, response, now).Approved?
    ensures var j := states[i];
            var g := j.waiting.value.pairing;
            && ValidateResponse(j.prompt.signed, g, j.waiting.value, response, now) == Approved(Some(g))
            && j.pairing.phone.active == Some(g) && g in j.pairing.minted && j.pairing.disk.vault.Some?
            && Unseal(j.pairing.disk.vault.value, j.pairing.password, j.pairing.minted[g].share)
                 == Some(j.pairing.disk.vault.value.plaintext)
  {
    RunKeepsJointInv(states, moves, i);
    var j := states[i];
    AcceptedIsOwn(j, response, now);
    ActiveWhileWaiting(j.pairing, j.waiting.value.pairing);
  }

  /** Unlocking over the exchange is the unlock of the pairing model, and the right password always opens the vault. */
  lemma {:induction false} ExchangeUnlocks(states: seq<Joint>, moves: seq<Move>, i: nat)
    requires Run(states, moves) && i < |moves| && moves[i].Accepts?
    ensures var s, t := states[i].pairing, states[i + 1].pairing;
            && (t == s || PP.DesktopStep(s, PP.DesktopUnlocks(moves[i].password), t))
            && (moves[i].password == s.password ==>
                  t.process.Idle? && t.process.session.plaintext == t.disk.vault.value.plaintext)
  {
    RunKeepsJointInv(states, moves, i);
    AcceptanceIsAnUnlock(states[i], moves[i], states[i + 1]);
  }
}
