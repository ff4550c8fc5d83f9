/**
 The phone's single prompt: admission, PIN checks, taking, signing, denial, expiry and restore, interleaved in
 every way with locks, backgrounding and unlocks.
 */
module ApprovalSlot {
  import opened PairingTypes
  import opened PinCooldown
  import opened AppSession
  import RW = ReplayWindow
  import P = PhoneStore

  type RequestId = RW.RequestId

  type InstanceId = nat

  datatype Action = Unlock | List | Read | Create | Update | Delete | Passwd | Pair

  datatype Request = Request(
    pairing: Gen,
    id: RequestId,
    code: nat,
    action: Action,
    title: Option<string>,
    shareRequested: bool,
    timestamp: U64)

  /** The signed part of a response; a share is named by the generation it belongs to. */
  datatype Body = Body(
    pairing: Gen,
    requestId: RequestId,
    code: nat,
    action: Action,
    approved: bool,
    share: Option<Gen>,
    timestamp: U64)

  /** Only the holder of the key makes one; the payload encoding is injective. */
  datatype Signature = Signature(key: Gen, request: Request, body: Body)

  /** Tells apart two admissions of the same request id. */
  datatype Identity = Identity(requestId: RequestId, instance: InstanceId, generation: U64, createdAt: Instant)

  datatype PendingRequest = PendingRequest(request: Request, identity: Identity)

  const PENDING_TTL: nat := 65000
  const SESSION_TTL: nat := 600000

  function KindFor(action: Action): P.PinKind {
    match action
    case Unlock => P.FourDigit
    case List => P.FourDigit
    case Read => P.FourDigit
    case _ => P.SixDigit
  }

  predicate Young(identity: Identity, now: Instant) {
    now < identity.createdAt + PENDING_TTL
  }

  /** The response to a request; an approval that owes a share cannot be built without one. */
  function BuildResponse(request: Request, approved: bool, share: Option<Gen>, timestamp: U64): (r: Result<Body>)
    ensures r.Ok? ==>
              && r.value.pairing == request.pairing && r.value.requestId == request.id
              && r.value.code == request.code && r.value.action == request.action && r.value.approved == approved
              && (r.value.share.Some? <==> approved && request.shareRequested)
              && (approved && request.shareRequested ==> r.value.share == share) && r.value.timestamp == timestamp
    ensures r.Err? <==> approved && request.shareRequested && share.None?
  {
    if approved && request.shareRequested && share.None? then Err(Refused)
    else
      Ok(Body(request.pairing, request.id, request.code, request.action, approved,
              if approved && request.shareRequested then share else None, timestamp))
  }

  // ----- taking and restoring

  predicate SessionCurrent(app: App, now: Instant) {
    app.unlockedAt.Some? && now <= app.unlockedAt.value + SESSION_TTL
  }

  /** The verified request is still the one in the slot, young, in the session it was admitted in. */
  predicate TakeAllowed(app: App, slot: Option<PendingRequest>, expected: Identity, now: Instant) {
    && app.generation == expected.generation && app.foreground && SessionCurrent(app, now)
    && slot.Some? && slot.value.request.id == expected.requestId
    && slot.value.identity == expected && Young(expected, now)
  }

  predicate RestoreAllowed(app: App, slot: Option<PendingRequest>, p: PendingRequest, now: Instant) {
    app.generation == p.identity.generation && app.foreground && Young(p.identity, now) && slot.None?
  }

  /** The shared slot of the phone app. */
  class Prompt {
    const app: AppState
    var pending: Option<PendingRequest>

    constructor (app: AppState)
      ensures this.app == app && pending.None?
    {
      this.app := app;
      pending := None;
    }

    method TakeVerifiedPending(expected: Identity, now: Instant) returns (r: Result<PendingRequest>)
      modifies this
      ensures r.Ok? <==> TakeAllowed(app.View(), old(pending), expected, now)
      ensures r.Ok? ==> old(pending) == Some(r.value) && pending.None?
      ensures r.Ok? <==>
                && old(pending).Some? && old(pending).value.identity == expected
                && old(pending).value.request.id == expected.requestId && now < expected.createdAt + 65000
                && app.isForeground && app.sessionGeneration == expected.generation
                && app.unlockedAt.Some? && now <= app.unlockedAt.value + 600000
      ensures r.Err? ==> pending == old(pending)
    {
      if app.sessionGeneration != expected.generation || !app.isForeground {
        return Err(Refused);
      }
      if app.unlockedAt.None? || now > app.unlockedAt.value + SESSION_TTL {
        return Err(Refused);
      }
      if pending.None? {
        return Err(Refused);
      }
      var current := pending.value;
      if current.request.id != expected.requestId || current.identity != expected || !Young(current.identity, now) {
        return Err(Refused);
      }
      pending := None;
      r := Ok(current);
    }

    method RestoreAfterSignError(p: PendingRequest, now: Instant)
      modifies this
      ensures pending == if RestoreAllowed(app.View(), old(pending), p, now) then Some(p) else old(pending)
      ensures old(pending).Some? ==> pending == old(pending)
      ensures old(pending).None? ==>
                (pending == Some(p) <==> app.sessionGeneration == p.identity.generation && app.isForeground
                                         && now < p.identity.createdAt + 65000)
    {
      if app.sessionGeneration == p.identity.generation && app.isForeground && Young(p.identity, now) {
        if pending.None? {
          pending := Some(p);
        }
      }
    }

    method TakeExpired(expected: Identity, now: Instant) returns (r: Option<PendingRequest>)
      modifies this
      ensures r.Some? <==> old(pending).Some? && old(pending).value.identity == expected && now >= expected.createdAt + 65000
      ensures r.Some? ==> r == old(pending) && pending.None?
      ensures r.None? ==> pending == old(pending)
    {
      if pending.Some? && pending.value.identity == expected && !Young(pending.value.identity, now) {
        r := pending;
        pending := None;
      } else {
        r := None;
      }
    }
  }

  // ----- the interleaved system

  /** What becomes of a request whose denial cannot be signed: put back if nothing has changed, put back regardless, or dropped. */
  datatype OnSignError = Guarded | Overwrite | Drop

  datatype Task =
    | Captured(identity: Identity, kind: P.PinKind)
    | Equipped(identity: Identity, kind: P.PinKind, key: Gen)
    | Judged(identity: Identity, kind: P.PinKind, key: Gen, approve: bool)
    | Approving(pending: PendingRequest, key: Gen, takenAt: Instant, lasting: bool)
    | Sharing(pending: PendingRequest, key: Gen, takenAt: Instant, lasting: bool, share: Option<Gen>, kept: bool)
    | Signing(pending: PendingRequest, key: Gen, takenAt: Instant, lasting: bool, share: Option<Gen>, kept: bool)
    | Denying(pending: PendingRequest, key: Gen, onSignError: OnSignError)
    | PuttingBack(pending: PendingRequest)

  /** kept: when the share was copied, the secrets in memory were still those whose PIN was checked. */
  datatype Sent = Sent(
    instance: InstanceId, approved: bool, key: Gen, takenAt: Instant, lasting: bool, share: Option<Gen>, kept: bool)

  /** A PIN of this kind, of this generation, was found right for this instance. */
  datatype PinCheck = PinCheck(instance: InstanceId, kind: P.PinKind, generation: Gen)

  datatype Sys = Sys(
    now: Instant,
    app: App,
    /** The generations whose approval key the platform key store still has. */
    keys: set<Gen>,
    recent: map<RequestId, U64>,
    slot: Option<PendingRequest>,
    tasks: map<nat, Task>,
    // what an observer remembers
    instances: map<InstanceId, PendingRequest>,
    verified: set<PinCheck>,
    /** Instances since whose admission the session has been unlocked, in the foreground, in one generation. */
    lasting: set<InstanceId>,
    /** Secrets were written directly, by the end of a setup, since the last lock. */
    rewritten: bool,
    sent: seq<Sent>,
    signed: set<Signature>)

  const BOOTED := Sys(0, NEW_APP, {}, map[], None, map[], map[], {}, {}, false, [], {})

  datatype Signed = Accepted | NotAuthenticated | Failed

  datatype Event =
    | TimePasses(now: Instant)
    | AppCalled(call: Call)
    | KeysChange(keys: set<Gen>)
    | Admits(request: Request, instance: InstanceId)
    | Rejects(request: Request, key: Gen, timestamp: U64)
    | Captures(i: nat)
    | Equips(i: nat)
    | Judges(i: nat, verdict: Verdict)
    | Takes(i: nat)
    | Shares(i: nat)
    | Confirms(i: nat)
    | Signs(i: nat, outcome: Signed, timestamp: U64)
    | Denies(i: nat, requestId: RequestId, key: Gen)
    | PutsBack(i: nat)
    | Expires(i: nat, expected: Identity, key: Gen)
    | Clears(i: nat, key: Gen)
    | Ends(i: nat)
    | Restarts

  /** The session of an admission goes on: same generation, same unlock, still in the foreground. */
  predicate GoesOn(before: App, after: App) {
    after.generation == before.generation && after.unlockedAt == before.unlockedAt && after.foreground
  }

  predicate TimedNow(call: Call, now: Instant) {
    match call
    case Mark(_, at) => at == now
    case CompleteUnlock(_, _, at) => at == now
    case CompleteReplacement(_, at) => at == now
    case _ => true
  }

  function Held(task: Task): Option<PendingRequest> {
    match task
    case Captured(_, _) => None
    case Equipped(_, _, _) => None
    case Judged(_, _, _, _) => None
    case _ => Some(task.pending)
  }

  function Without(s: Sys, i: nat): Sys {
    s.(tasks := s.tasks - {i})
  }

  /** Whatever is in the slot, taken to be denied. */
  function Taken(s: Sys, i: nat, task: Task): Sys {
    s.(slot := None, tasks := s.tasks[i := task])
  }

  predicate Admitting(s: Sys, request: Request, instance: InstanceId, t: Sys) {
    && s.app.foreground && s.slot.None? && instance !in s.instances && s.now <= U64_MAX
    && var (recent, accepted) := RW.Remembered(s.recent, request.id, s.now);
       if !accepted then t == s.(recent := recent)
       else
         var p := PendingRequest(request, Identity(request.id, instance, s.app.generation, s.now));
         t == s.(recent := recent, slot := Some(p), instances := s.instances[instance := p],
                 lasting := if s.app.unlockedAt.Some? then s.lasting + {instance} else s.lasting)
  }

  predicate Judging(s: Sys, i: nat, verdict: Verdict, t: Sys) {
    && i in s.tasks && s.tasks[i].Equipped?
    && var Equipped(identity, kind, key) := s.tasks[i];
       match verdict
       case Incorrect => t == Without(s, i)
       case Verified =>
         t == s.(tasks := s.tasks[i := Judged(identity, kind, key, true)],
                 verified := s.verified + {PinCheck(identity.instance, kind, key)})
       case _ => t == s.(tasks := s.tasks[i := Judged(identity, kind, key, false)])
  }

  predicate Taking(s: Sys, i: nat, t: Sys) {
    && i in s.tasks && s.tasks[i].Judged?
    && var Judged(identity, kind, key, approve) := s.tasks[i];
       if !TakeAllowed(s.app, s.slot, identity, s.now) then t == Without(s, i)
       else
         var p := s.slot.value;
         t == Taken(s, i, if approve then Approving(p, key, s.now, p.identity.instance in s.lasting) else Denying(p, key, Guarded))
  }

  /** Back in the foreground check and the copy of the share. */
  predicate SharingStep(s: Sys, i: nat, t: Sys) {
    && i in s.tasks && s.tasks[i].Approving?
    && var Approving(p, key, takenAt, lasting) := s.tasks[i];
       if !s.app.foreground || (p.request.shareRequested && s.app.secrets.None?) then t == Without(s, i)
       else
         var share := if p.request.shareRequested then s.app.secrets else None;
         t == s.(tasks := s.tasks[i := Sharing(p, key, takenAt, lasting, share, s.app.secrets == Some(key))])
  }

  /** After a failed signature: the key's authentication is forgotten, the request put back or dropped. */
  function AfterSignError(s: Sys, i: nat, p: PendingRequest, onSignError: OnSignError): Sys {
    var forgotten := Without(s, i).(app := s.app.(approvalKeyAuthenticatedAt := None));
    if onSignError.Overwrite? || (onSignError.Guarded? && RestoreAllowed(s.app, s.slot, p, s.now))
    then forgotten.(slot := Some(p))
    else forgotten
  }

  predicate SigningStep(s: Sys, i: nat, outcome: Signed, timestamp: U64, t: Sys) {
    && i in s.tasks && (s.tasks[i].Signing? || s.tasks[i].Denying?)
    && var task := s.tasks[i];
       var p := task.pending;
       var body := BuildResponse(p.request, task.Signing?, if task.Signing? then task.share else None, timestamp);
       match outcome
       case Failed => t == Without(s, i)
       case NotAuthenticated => t == AfterSignError(s, i, p, if task.Signing? then Guarded else task.onSignError)
       case Accepted =>
         && body.Ok? && task.key in s.keys
         && t == Without(s, i).(
                   signed := s.signed + {Signature(task.key, p.request, body.value)},
                   sent := s.sent + [Sent(p.identity.instance, task.Signing?, task.key,
                                          if task.Signing? then task.takenAt else s.now,
                                          task.Signing? && task.lasting, body.value.share,
                                          task.Signing? && task.kept)])
  }

  predicate Step(s: Sys, e: Event, t: Sys) {
    match e
    case TimePasses(now) => s.now <= now && t == s.(now := now)
    case AppCalled(call) =>
      && TimedNow(call, s.now)
      && t == s.(app := After(s.app, call), lasting := if GoesOn(s.app, After(s.app, call)) then s.lasting else {},
                 rewritten := !AppSession.Clears(call) && (s.rewritten || call.StoreActivated?))
    case KeysChange(keys) => t == s.(keys := keys)
    case Admits(request, instance) => Admitting(s, request, instance, t)
    case Rejects(request, key, timestamp) =>
      var body := BuildResponse(request, false, None, timestamp);
      body.Ok? && key in s.keys && t == s.(signed := s.signed + {Signature(key, request, body.value)})
    case Captures(i) =>
      && i !in s.tasks && s.slot.Some? && Young(s.slot.value.identity, s.now)
      && t == s.(tasks := s.tasks[i := Captured(s.slot.value.identity, KindFor(s.slot.value.request.action))])
    case Equips(i) =>
      && i in s.tasks && s.tasks[i].Captured? && s.app.secrets.Some?
      && t == s.(tasks := s.tasks[i := Equipped(s.tasks[i].identity, s.tasks[i].kind, s.app.secrets.value)])
    case Judges(i, verdict) => Judging(s, i, verdict, t)
    case Takes(i) => Taking(s, i, t)
    case Shares(i) => SharingStep(s, i, t)
    case Confirms(i) =>
      && i in s.tasks && s.tasks[i].Sharing?
      && var Sharing(p, key, takenAt, lasting, share, kept) := s.tasks[i];
         t == if Young(p.identity, s.now)
              then s.(tasks := s.tasks[i := Signing(p, key, takenAt, lasting, share, kept)])
              else Without(s, i)
    case Signs(i, outcome, timestamp) => SigningStep(s, i, outcome, timestamp, t)
    case Denies(i, requestId, key) =>
      && i !in s.tasks && s.slot.Some?
      && t == Taken(s, i, if s.slot.value.request.id == requestId then Denying(s.slot.value, key, Overwrite) else PuttingBack(s.slot.value))
    case PutsBack(i) =>
      && i in s.tasks && s.tasks[i].PuttingBack?
      && t == Without(s, i).(slot := Some(s.tasks[i].pending))
    case Expires(i, expected, key) =>
      && i !in s.tasks && s.slot.Some? && s.slot.value.identity == expected && !Young(expected, s.now)
      && t == Taken(s, i, Denying(s.slot.value, key, Drop))
    case Clears(i, key) =>
      && i !in s.tasks && s.slot.Some?
      && t == Taken(s, i, Denying(s.slot.value, key, Drop))
    case Ends(i) => t == Without(s, i)
    case Restarts => t == s.(app := NEW_APP, recent := map[], slot := None, tasks := map[], lasting := {}, rewritten := false)
  }

  predicate Run(states: seq<Sys>, events: seq<Event>) {
    && |states| == |events| + 1 && states[0] == BOOTED
    && forall k {:trigger events[k]} :: 0 <= k < |events| ==> Step(states[k], events[k], states[k + 1])
  }
}
