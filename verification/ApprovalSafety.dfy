/** What holds of the prompt in every interleaving. */
module ApprovalSafety {
  import opened PairingTypes
  import opened PinCooldown
  import opened AppSession
  import opened ApprovalSlot
  import P = PhoneStore

  /** As long as the generation of its admission stands, the session has lasted since. */
  ghost predicate Tied(s: Sys, identity: Identity) {
    && identity.generation <= s.app.generation
    && (identity.generation == s.app.generation && identity.generation < U64_MAX ==>
          s.app.foreground && (s.app.unlockedAt.Some? ==> identity.instance in s.lasting))
  }

  /** And, short of a direct write, the secrets in memory are those the key was taken from. */
  ghost predicate KeyInMemory(s: Sys, identity: Identity, key: Gen) {
    identity.generation == s.app.generation && identity.generation < U64_MAX && !s.rewritten ==> s.app.secrets == Some(key)
  }

  /** A share that is owed is copied, and is the key's own exactly if the secrets were kept. */
  predicate ShareOk(request: Request, key: Gen, share: Option<Gen>, kept: bool) {
    request.shareRequested ==> share.Some? && (share == Some(key) <==> kept)
  }

  ghost predicate Known(s: Sys, identity: Identity) {
    identity.instance in s.instances && s.instances[identity.instance].identity == identity && Tied(s, identity)
  }

  ghost predicate Unanswered(s: Sys, instance: InstanceId) {
    forall k :: 0 <= k < |s.sent| ==> s.sent[k].instance != instance
  }

  ghost predicate PendingOk(s: Sys, p: PendingRequest) {
    Known(s, p.identity) && s.instances[p.identity.instance] == p && Unanswered(s, p.identity.instance)
  }

  /** What an approval of this instance rests on. */
  ghost predicate Earned(s: Sys, instance: InstanceId, key: Gen, takenAt: Instant, lasting: bool) {
    && instance in s.instances
    && var p := s.instances[instance];
       && PinCheck(instance, KindFor(p.request.action), key) in s.verified
       && p.identity.createdAt <= takenAt < p.identity.createdAt + PENDING_TTL
       && (lasting || p.identity.generation == U64_MAX)
  }

  ghost predicate TaskOk(s: Sys, task: Task) {
    match task
    case Captured(identity, kind) =>
      Known(s, identity) && kind == KindFor(s.instances[identity.instance].request.action)
    case Equipped(identity, kind, key) =>
      && Known(s, identity) && kind == KindFor(s.instances[identity.instance].request.action)
      && KeyInMemory(s, identity, key)
    case Judged(identity, kind, key, approve) =>
      && Known(s, identity) && kind == KindFor(s.instances[identity.instance].request.action)
      && (approve ==> PinCheck(identity.instance, kind, key) in s.verified)
      && KeyInMemory(s, identity, key)
    case Approving(p, key, takenAt, lasting) =>
      PendingOk(s, p) && Earned(s, p.identity.instance, key, takenAt, lasting) && KeyInMemory(s, p.identity, key)
    case Sharing(p, key, takenAt, lasting, share, kept) =>
      PendingOk(s, p) && Earned(s, p.identity.instance, key, takenAt, lasting) && ShareOk(p.request, key, share, kept)
    case Signing(p, key, takenAt, lasting, share, kept) =>
      PendingOk(s, p) && Earned(s, p.identity.instance, key, takenAt, lasting) && ShareOk(p.request, key, share, kept)
    case Denying(p, _, _) => PendingOk(s, p)
    case PuttingBack(p) => PendingOk(s, p)
  }

  predicate Holds(task: Task, instance: InstanceId) {
    Held(task).Some? && Held(task).value.identity.instance == instance
  }

  /** Every instance is in one pair of hands at most: the slot's or one task's. */
  ghost predicate OneHolder(s: Sys) {
    && (forall i, j :: i in s.tasks && j in s.tasks && i != j && Held(s.tasks[i]).Some? ==>
          !Holds(s.tasks[j], Held(s.tasks[i]).value.identity.instance))
    && (s.slot.Some? ==> forall i :: i in s.tasks ==> !Holds(s.tasks[i], s.slot.value.identity.instance))
  }

  ghost predicate InstancesOk(s: Sys) {
    forall i :: i in s.instances ==>
      s.instances[i].identity.instance == i && s.instances[i].identity.createdAt <= s.now
      && s.instances[i].identity.requestId == s.instances[i].request.id
  }

  ghost predicate SentOk(s: Sys) {
    && (forall k :: 0 <= k < |s.sent| ==> s.sent[k].instance in s.instances)
    && (forall k :: 0 <= k < |s.sent| && s.sent[k].approved ==>
          && Earned(s, s.sent[k].instance, s.sent[k].key, s.sent[k].takenAt, s.sent[k].lasting)
          && ShareOk(s.instances[s.sent[k].instance].request, s.sent[k].key, s.sent[k].share, s.sent[k].kept))
    && (forall k, l :: 0 <= k < l < |s.sent| ==> s.sent[k].instance != s.sent[l].instance)
  }

  /** The signature was made when approval k was sent, for that instance's request. */
  ghost predicate MadeAt(s: Sys, signature: Signature, k: nat) {
    && k < |s.sent| && s.sent[k].approved && s.sent[k].key == signature.key && s.sent[k].share == signature.body.share
    && s.sent[k].instance in s.instances && s.instances[s.sent[k].instance].request == signature.request
  }

  predicate BuiltFor(signature: Signature) {
    && signature.body.pairing == signature.request.pairing && signature.body.requestId == signature.request.id
    && signature.body.code == signature.request.code && signature.body.action == signature.request.action
    && (signature.body.share.Some? <==> signature.body.approved && signature.request.shareRequested)
  }

  ghost predicate SignedOk(s: Sys) {
    forall signature :: signature in s.signed ==>
      BuiltFor(signature) && (signature.body.approved ==> exists k :: MadeAt(s, signature, k))
  }

  ghost predicate Inv(s: Sys) {
    && InstancesOk(s) && OneHolder(s) && SentOk(s) && SignedOk(s)
    && (s.slot.Some? ==> PendingOk(s, s.slot.value))
    && (forall i :: i in s.tasks ==> TaskOk(s, s.tasks[i]))
  }

  // ----- steps that move nothing

  /** Nothing an observer remembers is taken back, and ties to the session hold on. */
  ghost predicate Grows(s: Sys, t: Sys) {
    && s.now <= t.now && t.sent == s.sent && s.signed == t.signed && s.verified <= t.verified
    && (forall i :: i in s.instances ==> i in t.instances && t.instances[i] == s.instances[i])
    && (forall identity: Identity :: Known(s, identity) ==> Tied(t, identity))
    && (forall identity: Identity, key: Gen :: Known(s, identity) && KeyInMemory(s, identity, key) ==> KeyInMemory(t, identity, key))
  }

  lemma GrowsKeepsTask(s: Sys, t: Sys, task: Task)
    requires Grows(s, t) && TaskOk(s, task)
    ensures TaskOk(t, task)
  {
  }

  /** The log only grows, so what an old signature rests on stays. */
  lemma OldSignaturesKept(s: Sys, t: Sys)
    requires SignedOk(s) && s.sent <= t.sent
    requires forall i :: i in s.instances ==> i in t.instances && t.instances[i] == s.instances[i]
    ensures forall signature :: signature in s.signed ==>
              BuiltFor(signature) && (signature.body.approved ==> exists k :: MadeAt(t, signature, k))
  {
    forall signature | signature in s.signed && signature.body.approved ensures exists k :: MadeAt(t, signature, k) {
      var k: nat :| MadeAt(s, signature, k);
      assert t.sent[k] == s.sent[k];
      assert MadeAt(t, signature, k);
    }
  }

  lemma GrowsKeepsLog(s: Sys, t: Sys)
    requires Grows(s, t) && SentOk(s) && SignedOk(s)
    ensures SentOk(t) && SignedOk(t)
  {
    OldSignaturesKept(s, t);
  }

  /** The same hands hold the same requests. */
  lemma GrowsKeepsInv(s: Sys, t: Sys)
    requires Inv(s) && Grows(s, t) && InstancesOk(t) && t.slot == s.slot && t.tasks == s.tasks
    ensures Inv(t)
  {
    GrowsKeepsLog(s, t);
    forall i | i in t.tasks ensures TaskOk(t, t.tasks[i]) {
      GrowsKeepsTask(s, t, s.tasks[i]);
    }
  }

  lemma CallKeepsTies(s: Sys, call: Call, t: Sys)
    requires Step(s, AppCalled(call), t)
    ensures Grows(s, t)
  {
    CallMovesGenerationIff(s.app, call);
    forall identity: Identity | Known(s, identity) ensures Tied(t, identity) {
    }
    forall identity: Identity, key: Gen | Known(s, identity) && KeyInMemory(s, identity, key) ensures KeyInMemory(t, identity, key) {
      assert identity.generation <= s.app.generation;
    }
  }

  /** One task put where there was none, or in place of one that held the same request or none. */
  lemma TaskChangeKeepsInv(s: Sys, i: nat, task: Task, t: Sys)
    requires Inv(s) && t == s.(tasks := s.tasks[i := task], verified := t.verified) && s.verified <= t.verified
    requires TaskOk(t, task)
    requires Held(task).Some? ==> i in s.tasks && Held(s.tasks[i]) == Held(task)
    ensures Inv(t)
  {
    assert Grows(s, t);
    GrowsKeepsLog(s, t);
    forall j | j in t.tasks ensures TaskOk(t, t.tasks[j]) {
      if j != i {
        GrowsKeepsTask(s, t, s.tasks[j]);
      }
    }
  }

  lemma WithoutKeepsInv(s: Sys, i: nat)
    requires Inv(s)
    ensures Inv(Without(s, i))
  {
    var t := Without(s, i);
    assert Grows(s, t);
    GrowsKeepsLog(s, t);
    forall j | j in t.tasks ensures TaskOk(t, t.tasks[j]) {
      GrowsKeepsTask(s, t, s.tasks[j]);
    }
  }

  // ----- steps that move a request

  /** From the slot into a task's hands. */
  lemma TakenKeepsInv(s: Sys, i: nat, task: Task)
    requires Inv(s) && s.slot.Some? && Held(task) == s.slot && TaskOk(s, task)
    requires i in s.tasks ==> Held(s.tasks[i]).None?
    ensures Inv(Taken(s, i, task))
  {
    var t := Taken(s, i, task);
    assert Grows(s, t);
    GrowsKeepsLog(s, t);
    forall j | j in t.tasks ensures TaskOk(t, t.tasks[j]) {
      GrowsKeepsTask(s, t, if j == i then task else s.tasks[j]);
    }
    forall j, k | j in t.tasks && k in t.tasks && j != k && Held(t.tasks[j]).Some?
      ensures !Holds(t.tasks[k], Held(t.tasks[j]).value.identity.instance)
    {
      if j == i {
        assert t.tasks[k] == s.tasks[k];
      } else if k == i {
        assert !Holds(s.tasks[j], s.slot.value.identity.instance);
      }
    }
  }

  /** From a task's hands into the slot, over whatever is there. */
  lemma PutBackKeepsInv(s: Sys, i: nat, t: Sys)
    requires Inv(s) && i in s.tasks && Held(s.tasks[i]).Some?
    requires t == Without(s, i).(slot := Held(s.tasks[i]), app := t.app)
    requires t.app == s.app.(approvalKeyAuthenticatedAt := t.app.approvalKeyAuthenticatedAt)
    ensures Inv(t)
  {
    assert Grows(s, t);
    GrowsKeepsLog(s, t);
    GrowsKeepsTask(s, t, s.tasks[i]);
    forall j | j in t.tasks ensures TaskOk(t, t.tasks[j]) {
      GrowsKeepsTask(s, t, s.tasks[j]);
    }
  }

  lemma AdmissionGrows(s: Sys, request: Request, instance: InstanceId, t: Sys)
    requires Admitting(s, request, instance, t)
    ensures Grows(s, t)
  {
    forall identity: Identity | Known(s, identity) ensures Tied(t, identity) {
      assert identity.instance != instance;
    }
  }

  lemma NewInstanceIsUnheld(s: Sys, instance: InstanceId)
    requires Inv(s) && instance !in s.instances
    ensures Unanswered(s, instance) && forall j :: j in s.tasks ==> !Holds(s.tasks[j], instance)
  {
    forall j | j in s.tasks ensures !Holds(s.tasks[j], instance) {
      assert TaskOk(s, s.tasks[j]);
    }
  }

  lemma AdmissionKeepsInv(s: Sys, request: Request, instance: InstanceId, t: Sys)
    requires Inv(s) && Admitting(s, request, instance, t)
    ensures Inv(t)
  {
    AdmissionGrows(s, request, instance, t);
    GrowsKeepsLog(s, t);
    forall j | j in t.tasks ensures TaskOk(t, t.tasks[j]) {
      GrowsKeepsTask(s, t, s.tasks[j]);
    }
    NewInstanceIsUnheld(s, instance);
  }

  lemma TakingKeepsInv(s: Sys, i: nat, t: Sys)
    requires Inv(s) && Taking(s, i, t)
    ensures Inv(t)
  {
    var Judged(identity, kind, key, approve) := s.tasks[i];
    if TakeAllowed(s.app, s.slot, identity, s.now) {
      var p := s.slot.value;
      var lasting := p.identity.instance in s.lasting;
      assert approve ==> Earned(s, identity.instance, key, s.now, lasting);
      TakenKeepsInv(s, i, if approve then Approving(p, key, s.now, lasting) else Denying(p, key, Guarded));
    } else {
      WithoutKeepsInv(s, i);
    }
  }

  lemma SentKeepsTask(s: Sys, i: nat, j: nat, t: Sys)
    requires Inv(s) && i in s.tasks && j in s.tasks && j != i && Held(s.tasks[i]).Some?
    requires t == Without(s, i).(signed := t.signed, sent := t.sent) && |t.sent| == |s.sent| + 1 && t.sent[..|s.sent|] == s.sent
    requires t.sent[|s.sent|].instance == Held(s.tasks[i]).value.identity.instance
    ensures TaskOk(t, s.tasks[j])
  {
    assert Held(s.tasks[j]).Some? ==> !Holds(s.tasks[j], t.sent[|s.sent|].instance);
    forall instance | Unanswered(s, instance) && instance != t.sent[|s.sent|].instance ensures Unanswered(t, instance) {
      forall k | 0 <= k < |t.sent| ensures t.sent[k].instance != instance {
        assert k < |s.sent| ==> t.sent[k] == s.sent[k];
      }
    }
    assert TaskOk(s, s.tasks[j]);
  }

  lemma SentKeepsSent(s: Sys, i: nat, timestamp: U64, t: Sys)
    requires Inv(s) && SigningStep(s, i, Accepted, timestamp, t)
    ensures SentOk(t)
  {
    assert t.sent[..|s.sent|] == s.sent;
    assert TaskOk(s, s.tasks[i]);
  }

  lemma SentKeepsSigned(s: Sys, i: nat, timestamp: U64, t: Sys)
    requires Inv(s) && SigningStep(s, i, Accepted, timestamp, t)
    ensures SignedOk(t)
  {
    var n := |s.sent|;
    assert t.sent[..n] == s.sent;
    assert TaskOk(s, s.tasks[i]);
    OldSignaturesKept(s, t);
    forall signature | signature in t.signed && signature !in s.signed && signature.body.approved ensures exists k :: MadeAt(t, signature, k) {
      assert MadeAt(t, signature, n);
    }
  }

  lemma AnswerKeepsInv(s: Sys, i: nat, timestamp: U64, t: Sys)
    requires Inv(s) && SigningStep(s, i, Accepted, timestamp, t)
    ensures Inv(t)
  {
    SentKeepsSent(s, i, timestamp, t);
    SentKeepsSigned(s, i, timestamp, t);
    forall j | j in t.tasks ensures TaskOk(t, t.tasks[j]) {
      SentKeepsTask(s, i, j, t);
    }
    assert s.slot.Some? ==> s.slot.value.identity.instance != s.tasks[i].pending.identity.instance;
  }

  lemma SignErrorKeepsInv(s: Sys, i: nat, timestamp: U64, t: Sys)
    requires Inv(s) && SigningStep(s, i, NotAuthenticated, timestamp, t)
    ensures Inv(t)
  {
    if t.slot == s.slot {
      WithoutKeepsInv(s, i);
      GrowsKeepsInv(Without(s, i), t);
    } else {
      PutBackKeepsInv(s, i, t);
    }
  }

  lemma SigningKeepsInv(s: Sys, i: nat, outcome: Signed, timestamp: U64, t: Sys)
    requires Inv(s) && SigningStep(s, i, outcome, timestamp, t)
    ensures Inv(t)
  {
    match outcome {
      case Failed => WithoutKeepsInv(s, i);
      case NotAuthenticated => SignErrorKeepsInv(s, i, timestamp, t);
      case Accepted => AnswerKeepsInv(s, i, timestamp, t);
    }
  }

  lemma JudgingKeepsInv(s: Sys, i: nat, verdict: Verdict, t: Sys)
    requires Inv(s) && Judging(s, i, verdict, t)
    ensures Inv(t)
  {
    if verdict.Incorrect? {
      WithoutKeepsInv(s, i);
    } else {
      TaskChangeKeepsInv(s, i, t.tasks[i], t);
    }
  }

  /** Before the PIN is judged: the slot is read, then the secrets. */
  lemma ReadingKeepsInv(s: Sys, e: Event, t: Sys)
    requires Inv(s) && Step(s, e, t) && (e.Captures? || e.Equips?)
    ensures Inv(t)
  {
    TaskChangeKeepsInv(s, e.i, t.tasks[e.i], t);
  }

  /** After the request is taken: the share is copied. */
  lemma SharingKeepsInv(s: Sys, i: nat, t: Sys)
    requires Inv(s) && SharingStep(s, i, t)
    ensures Inv(t)
  {
    if i in t.tasks {
      assert TaskOk(s, s.tasks[i]);
      TaskChangeKeepsInv(s, i, t.tasks[i], t);
    } else {
      WithoutKeepsInv(s, i);
    }
  }

  /** And its age checked once more. */
  lemma ConfirmingKeepsInv(s: Sys, e: Event, t: Sys)
    requires Inv(s) && Step(s, e, t) && e.Confirms?
    ensures Inv(t)
  {
    if e.i in t.tasks {
      assert TaskOk(s, s.tasks[e.i]);
      TaskChangeKeepsInv(s, e.i, t.tasks[e.i], t);
    } else {
      WithoutKeepsInv(s, e.i);
    }
  }

  lemma TakingAwayKeepsInv(s: Sys, e: Event, t: Sys)
    requires Inv(s) && Step(s, e, t) && (e.Denies? || e.Expires? || e.Clears?)
    ensures Inv(t)
  {
    TakenKeepsInv(s, e.i, t.tasks[e.i]);
  }

  lemma RejectionKeepsInv(s: Sys, e: Event, t: Sys)
    requires Inv(s) && e.Rejects? && Step(s, e, t)
    ensures Inv(t)
  {
    OldSignaturesKept(s, t);
    forall i | i in t.tasks ensures TaskOk(t, t.tasks[i]) {
      assert TaskOk(s, s.tasks[i]);
    }
  }

  lemma RestartKeepsInv(s: Sys, t: Sys)
    requires Inv(s) && Step(s, Restarts, t)
    ensures Inv(t)
  {
    OldSignaturesKept(s, t);
  }

  /** Steps that belong to no task: time, the session, the network and a restart. */
  predicate Ambient(e: Event) {
    e.TimePasses? || e.AppCalled? || e.KeysChange? || e.Admits? || e.Rejects? || e.Restarts?
  }

  lemma AmbientStepKeepsInv(s: Sys, e: Event, t: Sys)
    requires Inv(s) && Step(s, e, t) && Ambient(e)
    ensures Inv(t)
  {
    match e {
      case TimePasses(_) => GrowsKeepsInv(s, t);
      case KeysChange(_) => GrowsKeepsInv(s, t);
      case AppCalled(call) => CallKeepsTies(s, call, t); GrowsKeepsInv(s, t);
      case Admits(request, instance) => AdmissionKeepsInv(s, request, instance, t);
      case Rejects(_, _, _) => RejectionKeepsInv(s, e, t);
      case Restarts => RestartKeepsInv(s, t);
    }
  }

  lemma TaskStepKeepsInv(s: Sys, e: Event, t: Sys)
    requires Inv(s) && Step(s, e, t) && (e.Judges? || e.Takes? || e.Signs? || e.PutsBack? || e.Ends?)
    ensures Inv(t)
  {
    match e {
      case Judges(i, verdict) => JudgingKeepsInv(s, i, verdict, t);
      case Takes(i) => TakingKeepsInv(s, i, t);
      case Signs(i, outcome, timestamp) => SigningKeepsInv(s, i, outcome, timestamp, t);
      case PutsBack(i) => PutBackKeepsInv(s, i, t);
      case Ends(i) => WithoutKeepsInv(s, i);
    }
  }

  lemma StepKeepsInv(s: Sys, e: Event, t: Sys)
    requires Inv(s) && Step(s, e, t)
    ensures Inv(t)
  {
    if Ambient(e) {
      AmbientStepKeepsInv(s, e, t);
    } else if e.Denies? || e.Expires? || e.Clears? {
      TakingAwayKeepsInv(s, e, t);
    } else if e.Captures? || e.Equips? {
      ReadingKeepsInv(s, e, t);
    } else if e.Shares? {
      SharingKeepsInv(s, e.i, t);
    } else if e.Confirms? {
      ConfirmingKeepsInv(s, e, t);
    } else {
      TaskStepKeepsInv(s, e, t);
    }
  }

  lemma {:induction false} RunKeepsInv(states: seq<Sys>, events: seq<Event>, k: nat)
    requires Run(states, events) && k < |states|
    ensures Inv(states[k])
  {
    if k > 0 {
      RunKeepsInv(states, events, k - 1);
      StepKeepsInv(states[k - 1], events[k - 1], states[k]);
    }
  }

  // ----- the guarantees

  /**
   Every approval ever sent: a right PIN of the kind that the action requires was entered for that very instance,
   which when it was taken was under 65 s old in a session unlocked without a break since its admission.
   */
  lemma {:induction false} ApprovalsAreEarned(states: seq<Sys>, events: seq<Event>, k: nat, n: nat)
    requires Run(states, events) && k < |states| && n < |states[k].sent| && states[k].sent[n].approved
    ensures var s := states[k];
            var sent := s.sent[n];
            && sent.instance in s.instances
            && var p := s.instances[sent.instance];
               && (p.request.action in {Unlock, List, Read} ==> PinCheck(sent.instance, P.FourDigit, sent.key) in s.verified)
               && (p.request.action in {Create, Update, Delete, Passwd, Pair} ==> PinCheck(sent.instance, P.SixDigit, sent.key) in s.verified)
               && p.identity.createdAt <= sent.takenAt < p.identity.createdAt + 65000
               && (p.identity.generation < U64_MAX ==> sent.lasting)
  {
    RunKeepsInv(states, events, k);
  }

  // ----- the steps behind an approval

  /** Task i takes request p out of the slot: young, in its session, within ten minutes of the unlock. */
  ghost predicate TookAt(s: Sys, e: Event, i: nat, p: PendingRequest, takenAt: Instant) {
    && e == Takes(i) && s.slot == Some(p) && s.now == takenAt < p.identity.createdAt + 65000
    && s.app.foreground && s.app.generation == p.identity.generation
    && s.app.unlockedAt.Some? && takenAt <= s.app.unlockedAt.value + 600000
  }

  /** In the foreground it copies the share that is owed from the secrets in memory. */
  ghost predicate CopiedAt(s: Sys, e: Event, i: nat, p: PendingRequest, share: Option<Gen>) {
    e == Shares(i) && s.app.foreground && share == if p.request.shareRequested then s.app.secrets else None
  }

  /** And the request is still young before it is signed for. */
  ghost predicate ConfirmedAt(s: Sys, e: Event, i: nat, p: PendingRequest) {
    e == Confirms(i) && s.now < p.identity.createdAt + 65000
  }

  /** How a task came to be approving, with its share, or about to sign. */
  lemma StepTakes(s: Sys, e: Event, t: Sys, i: nat)
    requires Step(s, e, t) && i in t.tasks && t.tasks[i].Approving?
    ensures (i in s.tasks && s.tasks[i] == t.tasks[i]) || TookAt(s, e, i, t.tasks[i].pending, t.tasks[i].takenAt)
  {
    if Ambient(e) {
      AmbientStepsKeepTasks(s, e, t, i);
    } else if e.i != i {
      OtherTasksStay(s, e, t, i);
    }
  }

  lemma StepCopies(s: Sys, e: Event, t: Sys, i: nat)
    requires Step(s, e, t) && i in t.tasks && t.tasks[i].Sharing?
    ensures i in s.tasks
    ensures var task := t.tasks[i];
            || s.tasks[i] == task
            || (s.tasks[i] == Approving(task.pending, task.key, task.takenAt, task.lasting)
                && CopiedAt(s, e, i, task.pending, task.share))
  {
    if Ambient(e) {
      AmbientStepsKeepTasks(s, e, t, i);
    } else if e.i != i {
      OtherTasksStay(s, e, t, i);
    }
  }

  lemma StepConfirms(s: Sys, e: Event, t: Sys, i: nat)
    requires Step(s, e, t) && i in t.tasks && t.tasks[i].Signing?
    ensures i in s.tasks
    ensures var task := t.tasks[i];
            || s.tasks[i] == task
            || (s.tasks[i] == Sharing(task.pending, task.key, task.takenAt, task.lasting, task.share, task.kept)
                && ConfirmedAt(s, e, i, task.pending))
  {
    if Ambient(e) {
      AmbientStepsKeepTasks(s, e, t, i);
    } else if e.i != i {
      OtherTasksStay(s, e, t, i);
    }
  }

  lemma {:induction false} WhenTaken(states: seq<Sys>, events: seq<Event>, k: nat, i: nat) returns (m: nat)
    requires Run(states, events) && k < |states| && i in states[k].tasks && states[k].tasks[i].Approving?
    ensures m < k && TookAt(states[m], events[m], i, states[k].tasks[i].pending, states[k].tasks[i].takenAt)
  {
    assert Step(states[k - 1], events[k - 1], states[k]);
    StepTakes(states[k - 1], events[k - 1], states[k], i);
    if i in states[k - 1].tasks && states[k - 1].tasks[i] == states[k].tasks[i] {
      m := WhenTaken(states, events, k - 1, i);
    } else {
      m := k - 1;
    }
  }

  lemma {:induction false} WhenCopied(states: seq<Sys>, events: seq<Event>, k: nat, i: nat) returns (m: nat, n: nat)
    requires Run(states, events) && k < |states| && i in states[k].tasks && states[k].tasks[i].Sharing?
    ensures var task := states[k].tasks[i];
            && m < n < k && TookAt(states[m], events[m], i, task.pending, task.takenAt)
            && CopiedAt(states[n], events[n], i, task.pending, task.share)
  {
    assert Step(states[k - 1], events[k - 1], states[k]);
    StepCopies(states[k - 1], events[k - 1], states[k], i);
    if states[k - 1].tasks[i] == states[k].tasks[i] {
      m, n := WhenCopied(states, events, k - 1, i);
    } else {
      m := WhenTaken(states, events, k - 1, i);
      n := k - 1;
    }
  }

  lemma {:induction false} WhenConfirmed(states: seq<Sys>, events: seq<Event>, k: nat, i: nat) returns (m: nat, n: nat, o: nat)
    requires Run(states, events) && k < |states| && i in states[k].tasks && states[k].tasks[i].Signing?
    ensures var task := states[k].tasks[i];
            && m < n < o < k && TookAt(states[m], events[m], i, task.pending, task.takenAt)
            && CopiedAt(states[n], events[n], i, task.pending, task.share) && ConfirmedAt(states[o], events[o], i, task.pending)
  {
    assert Step(states[k - 1], events[k - 1], states[k]);
    StepConfirms(states[k - 1], events[k - 1], states[k], i);
    if states[k - 1].tasks[i] == states[k].tasks[i] {
      m, n, o := WhenConfirmed(states, events, k - 1, i);
    } else {
      m, n := WhenCopied(states, events, k - 1, i);
      o := k - 1;
    }
  }

  lemma OnlyAdmissionsAdd(s: Sys, e: Event, t: Sys)
    requires Step(s, e, t) && !e.Admits?
    ensures t.instances == s.instances
  {
  }

  /** The one new instance, if any, is the one admitted. */
  lemma InstancesStay(s: Sys, e: Event, t: Sys)
    requires Step(s, e, t)
    ensures forall i :: i in s.instances ==> i in t.instances && t.instances[i] == s.instances[i]
    ensures forall i :: i in t.instances && i !in s.instances ==> e.Admits? && t.instances[i].request == e.request
  {
    if !e.Admits? {
      OnlyAdmissionsAdd(s, e, t);
    }
  }

  lemma SignedApproval(s: Sys, e: Event, t: Sys, n: nat)
    requires Step(s, e, t) && n < |t.sent| && t.sent[n].approved
    ensures || (n < |s.sent| && s.sent[n] == t.sent[n])
            || (e.Signs? && e.i in s.tasks && s.tasks[e.i].Signing? && t.sent[n].takenAt == s.tasks[e.i].takenAt
                && t.sent[n].instance == s.tasks[e.i].pending.identity.instance
                && (s.tasks[e.i].pending.request.shareRequested ==> t.sent[n].share == s.tasks[e.i].share))
  {
    if !e.Signs? {
      OnlySigningSends(s, e, t);
    }
  }

  lemma {:induction false} SignerHolds(states: seq<Sys>, events: seq<Event>, k: nat, i: nat)
    requires Run(states, events) && k < |states| && i in states[k].tasks && states[k].tasks[i].Signing?
    ensures var p := states[k].tasks[i].pending;
            p.identity.instance in states[k].instances && states[k].instances[p.identity.instance] == p
  {
    RunKeepsInv(states, events, k);
    assert TaskOk(states[k], states[k].tasks[i]);
  }

  /**
   Behind every approval ever sent lie three earlier steps of one task: it took the request from the prompt, in its session
   and within ten minutes of an unlock that still stood; it copied the share that is sent; it found the request still young.
   */
  lemma {:induction false} ApprovalSteps(states: seq<Sys>, events: seq<Event>, k: nat, n: nat)
      returns (taken: nat, copied: nat, confirmed: nat, i: nat, p: PendingRequest)
    requires Run(states, events) && k < |states| && n < |states[k].sent| && states[k].sent[n].approved
    ensures taken < copied < confirmed < k
    ensures states[k].sent[n].instance in states[k].instances && states[k].instances[states[k].sent[n].instance] == p
    ensures TookAt(states[taken], events[taken], i, p, states[k].sent[n].takenAt)
    ensures CopiedAt(states[copied], events[copied], i, p, if p.request.shareRequested then states[k].sent[n].share else None)
    ensures ConfirmedAt(states[confirmed], events[confirmed], i, p)
  {
    assert Step(states[k - 1], events[k - 1], states[k]);
    SignedApproval(states[k - 1], events[k - 1], states[k], n);
    InstancesStay(states[k - 1], events[k - 1], states[k]);
    if n < |states[k - 1].sent| && states[k - 1].sent[n] == states[k].sent[n] {
      taken, copied, confirmed, i, p := ApprovalSteps(states, events, k - 1, n);
    } else {
      i := events[k - 1].i;
      p := states[k - 1].tasks[i].pending;
      SignerHolds(states, events, k - 1, i);
      taken, copied, confirmed := WhenConfirmed(states, events, k - 1, i);
    }
  }

  /** If the session of its admission still goes on when the share is copied, and no setup has ended in it, the secrets were kept. */
  lemma {:induction false} SecretsAreKept(states: seq<Sys>, events: seq<Event>, k: nat, i: nat)
    requires Run(states, events) && k < |events| && events[k] == Shares(i)
    requires i in states[k].tasks && states[k].tasks[i].Approving?
    requires states[k].tasks[i].pending.identity.generation == states[k].app.generation < U64_MAX && !states[k].rewritten
    ensures states[k].app.secrets == Some(states[k].tasks[i].key)
    ensures i in states[k + 1].tasks ==> states[k + 1].tasks[i].Sharing? && states[k + 1].tasks[i].kept
  {
    RunKeepsInv(states, events, k);
    assert TaskOk(states[k], states[k].tasks[i]);
    assert Step(states[k], events[k], states[k + 1]);
  }

  /** An admitted instance is answered at most once, whatever expires, is restored or admitted again. */
  lemma {:induction false} AnsweredOnce(states: seq<Sys>, events: seq<Event>, k: nat, m: nat, n: nat)
    requires Run(states, events) && k < |states|
    requires m < |states[k].sent| && n < |states[k].sent| && states[k].sent[m].instance == states[k].sent[n].instance
    ensures m == n
  {
    RunKeepsInv(states, events, k);
  }

  // ----- no request is shown twice

  /** A request with this id gets into the prompt. */
  predicate AdmitsId(s: Sys, e: Event, t: Sys, id: RequestId) {
    e.Admits? && e.request.id == id && t.instances != s.instances
  }

  ghost predicate Remembers(s: Sys, id: RequestId, at: nat) {
    (id in s.recent && at <= s.recent[id] <= s.now) || at + 600000 <= s.now
  }

  lemma AdmissionRemembers(s: Sys, e: Event, t: Sys, id: RequestId)
    requires Step(s, e, t) && AdmitsId(s, e, t, id)
    ensures Remembers(t, id, s.now)
    ensures forall at: nat :: Remembers(s, id, at) ==> at + 600000 <= s.now
  {
  }

  lemma StepRemembers(s: Sys, e: Event, t: Sys, id: RequestId, at: nat)
    requires Step(s, e, t) && !e.Restarts? && Remembers(s, id, at)
    ensures Remembers(t, id, at)
  {
    if !e.Admits? {
      OnlyAdmissionsRemember(s, e, t);
    }
  }

  lemma OnlyAdmissionsRemember(s: Sys, e: Event, t: Sys)
    requires Step(s, e, t) && !e.Admits? && !e.Restarts?
    ensures t.recent == s.recent && s.now <= t.now
  {
  }

  /** The app is not restarted between moves k and l. */
  predicate RunsOn(events: seq<Event>, k: nat, l: nat) {
    forall m :: k < m < l && m < |events| ==> !events[m].Restarts?
  }

  lemma {:induction false} RemembersSince(states: seq<Sys>, events: seq<Event>, k: nat, l: nat, id: RequestId)
    requires Run(states, events) && k < l <= |events| && AdmitsId(states[k], events[k], states[k + 1], id)
    requires RunsOn(events, k, l)
    ensures Remembers(states[l], id, states[k].now)
  {
    if l == k + 1 {
      AdmissionRemembers(states[k], events[k], states[l], id);
    } else {
      RemembersSince(states, events, k, l - 1, id);
      assert Step(states[l - 1], events[l - 1], states[l]);
      StepRemembers(states[l - 1], events[l - 1], states[l], id, states[k].now);
    }
  }

  /** Between restarts of the app one request id gets into the prompt at most once in ten minutes. */
  lemma {:induction false} SameRequestApart(states: seq<Sys>, events: seq<Event>, k: nat, l: nat, id: RequestId)
    requires Run(states, events) && k < l < |events|
    requires AdmitsId(states[k], events[k], states[k + 1], id) && AdmitsId(states[l], events[l], states[l + 1], id)
    requires RunsOn(events, k, l)
    ensures states[l].now >= states[k].now + 600000
  {
    RemembersSince(states, events, k, l, id);
    AdmissionRemembers(states[l], events[l], states[l + 1], id);
  }

  // ----- when a prompt is lost

  /** Someone still has the instance: the slot or a task. */
  ghost predicate InHands(s: Sys, instance: InstanceId) {
    || (s.slot.Some? && s.slot.value.identity.instance == instance)
    || exists i :: i in s.tasks && Holds(s.tasks[i], instance)
  }

  /** A request put back without a look at the slot: after a denial by a wrong id, or one that could not be signed. */
  predicate Overwrites(s: Sys, e: Event) {
    || e.PutsBack?
    || (e.Signs? && e.outcome.NotAuthenticated? && e.i in s.tasks && s.tasks[e.i].Denying? && s.tasks[e.i].onSignError.Overwrite?)
  }

  lemma OverwritingLoses(s: Sys, e: Event, t: Sys)
    requires Inv(s) && Step(s, e, t) && s.slot.Some? && Overwrites(s, e)
    ensures !InHands(t, s.slot.value.identity.instance)
  {
    assert !Holds(s.tasks[e.i], s.slot.value.identity.instance);
    forall i | i in t.tasks ensures !Holds(t.tasks[i], s.slot.value.identity.instance) {
      assert t.tasks[i] == s.tasks[i];
    }
  }

  lemma OthersKeep(s: Sys, e: Event, t: Sys)
    requires Step(s, e, t) && s.slot.Some? && !Overwrites(s, e) && !e.Restarts?
    ensures InHands(t, s.slot.value.identity.instance)
  {
    if e.Takes? || e.Denies? || e.Expires? || e.Clears? {
      assert t.slot == s.slot || Holds(t.tasks[e.i], s.slot.value.identity.instance);
    }
  }

  /** The prompt in the slot is lost to everyone in exactly these steps; a newer one than the request put back, as it happens. */
  lemma {:induction false} PromptLostIff(states: seq<Sys>, events: seq<Event>, k: nat)
    requires Run(states, events) && k < |events| && states[k].slot.Some? && !events[k].Restarts?
    ensures !InHands(states[k + 1], states[k].slot.value.identity.instance) <==> Overwrites(states[k], events[k])
  {
    RunKeepsInv(states, events, k);
    assert Step(states[k], events[k], states[k + 1]);
    if Overwrites(states[k], events[k]) {
      OverwritingLoses(states[k], events[k], states[k + 1]);
    } else {
      OthersKeep(states[k], events[k], states[k + 1]);
    }
  }

  /** Admitted, unanswered, and in nobody's hands. */
  ghost predicate Lost(s: Sys, instance: InstanceId) {
    instance in s.instances && !InHands(s, instance) && Unanswered(s, instance)
  }

  lemma AmbientStepsKeepTasks(s: Sys, e: Event, t: Sys, i: nat)
    requires Step(s, e, t) && Ambient(e) && i in t.tasks
    ensures i in s.tasks && t.tasks[i] == s.tasks[i]
  {
  }

  lemma SigningLeavesOthers(s: Sys, i: nat, outcome: Signed, timestamp: U64, t: Sys, j: nat)
    requires SigningStep(s, i, outcome, timestamp, t) && j in t.tasks && j != i
    ensures j in s.tasks && t.tasks[j] == s.tasks[j]
  {
  }

  lemma TakingLeavesOthers(s: Sys, i: nat, t: Sys, j: nat)
    requires Taking(s, i, t) && j in t.tasks && j != i
    ensures j in s.tasks && t.tasks[j] == s.tasks[j]
  {
  }

  /** A task step changes its own task only. */
  lemma OtherTasksStay(s: Sys, e: Event, t: Sys, i: nat)
    requires Step(s, e, t) && !Ambient(e) && i in t.tasks && e.i != i
    ensures i in s.tasks && t.tasks[i] == s.tasks[i]
  {
    match e {
      case Takes(j) => TakingLeavesOthers(s, j, t, i);
      case Signs(j, outcome, timestamp) => SigningLeavesOthers(s, j, outcome, timestamp, t, i);
      case _ =>
    }
  }

  /** A request in a task's hands was there before, or in the slot. */
  lemma TaskGotItFrom(s: Sys, e: Event, t: Sys, i: nat)
    requires Step(s, e, t) && i in t.tasks && Held(t.tasks[i]).Some?
    ensures Held(t.tasks[i]) == s.slot || (i in s.tasks && Held(t.tasks[i]) == Held(s.tasks[i]))
  {
    if Ambient(e) {
      AmbientStepsKeepTasks(s, e, t, i);
    } else if e.i != i {
      OtherTasksStay(s, e, t, i);
    }
  }

  /** A request in the slot was there before, in a task's hands, or is new. */
  lemma SlotGotItFrom(s: Sys, e: Event, t: Sys)
    requires Step(s, e, t) && t.slot.Some? && t.slot != s.slot
    ensures || (e.Admits? && t.slot.value.identity.instance !in s.instances)
            || ((e.Signs? || e.PutsBack?) && e.i in s.tasks && t.slot == Held(s.tasks[e.i]))
  {
  }

  /** So requests only pass from hand to hand. */
  lemma HandsStayEmpty(s: Sys, e: Event, t: Sys, instance: InstanceId)
    requires Step(s, e, t) && instance in s.instances && !InHands(s, instance)
    ensures instance in t.instances && !InHands(t, instance)
  {
    forall i | i in t.tasks ensures !Holds(t.tasks[i], instance) {
      if Held(t.tasks[i]).Some? {
        TaskGotItFrom(s, e, t, i);
        assert i in s.tasks ==> !Holds(s.tasks[i], instance);
      }
    }
    if t.slot.Some? && t.slot != s.slot {
      SlotGotItFrom(s, e, t);
      assert (e.Signs? || e.PutsBack?) && e.i in s.tasks ==> !Holds(s.tasks[e.i], instance);
    }
  }

  lemma SignerAnswersItsOwn(s: Sys, i: nat, outcome: Signed, timestamp: U64, t: Sys, instance: InstanceId)
    requires SigningStep(s, i, outcome, timestamp, t) && !Holds(s.tasks[i], instance) && Unanswered(s, instance)
    ensures Unanswered(t, instance)
  {
  }

  lemma OnlySigningSends(s: Sys, e: Event, t: Sys)
    requires Step(s, e, t) && !e.Signs?
    ensures t.sent == s.sent
  {
  }

  lemma OnlyHoldersAnswer(s: Sys, e: Event, t: Sys, instance: InstanceId)
    requires Step(s, e, t) && !InHands(s, instance) && Unanswered(s, instance)
    ensures Unanswered(t, instance)
  {
    if e.Signs? {
      SignerAnswersItsOwn(s, e.i, e.outcome, e.timestamp, t, instance);
    } else {
      OnlySigningSends(s, e, t);
    }
  }

  /** And for good: a prompt lost unanswered never gets an answer in any continuation of the run. */
  lemma {:induction false} LostIsNeverAnswered(states: seq<Sys>, events: seq<Event>, k: nat, n: nat, instance: InstanceId)
    requires Run(states, events) && k <= n < |states| && Lost(states[k], instance)
    ensures Lost(states[n], instance)
  {
    if k < n {
      LostIsNeverAnswered(states, events, k, n - 1, instance);
      var s, e, t := states[n - 1], events[n - 1], states[n];
      assert Step(s, e, t);
      HandsStayEmpty(s, e, t, instance);
      OnlyHoldersAnswer(s, e, t, instance);
    }
  }
}
