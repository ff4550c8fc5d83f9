/** Unlocking over the exchange does go through: from every state of every joint run in which the phone is ready for it. */
module UnlockProgress {
  import opened PairingTypes
  import opened PinCooldown
  import opened ApprovalSlot
  import opened ApprovalExchange
  import opened OneDesktop
  import RW = ReplayWindow

  ghost predicate Leads(j: Joint, k: Joint) {
    exists states, moves :: Path(states, moves) && states[0] == j && states[|moves|] == k
  }

  ghost predicate Path(states: seq<Joint>, moves: seq<Move>) {
    |states| == |moves| + 1 && forall i :: 0 <= i < |moves| ==> OneDesktop.Step(states[i], moves[i], states[i + 1])
  }

  lemma Onward(j: Joint, k: Joint, m: Move, l: Joint)
    requires Leads(j, k) && OneDesktop.Step(k, m, l)
    ensures Leads(j, l)
  {
    var states, moves :| Path(states, moves) && states[0] == j && states[|moves|] == k;
    var states', moves' := states + [l], moves + [m];
    forall i | 0 <= i < |moves'| ensures OneDesktop.Step(states'[i], moves'[i], states'[i + 1]) {
      if i < |moves| {
        assert OneDesktop.Step(states[i], moves[i], states[i + 1]);
      }
    }
    assert Path(states', moves') && states'[0] == j && states'[|moves'|] == l;
  }

  /** One step of the prompt that leaves the secrets in memory alone. */
  lemma Prompted(j: Joint, k: Joint, e: Event, t: Sys)
    requires Leads(j, k) && ApprovalSlot.Step(k.prompt, e, t) && t.app == k.prompt.app
    requires !e.KeysChange? && !e.Restarts? && (e.Admits? ==> e.request in k.asked)
    ensures Leads(j, k.(prompt := t))
  {
    Onward(j, k, Prompt(e), k.(prompt := t));
  }

  /** The app is unlocked with the pairing's secrets, its prompt is empty, and the request is one it admits. */
  ghost predicate Attends(s: Sys, request: Request) {
    && s.slot.None? && s.app.foreground && SessionCurrent(s.app, s.now) && s.app.secrets == Some(request.pairing)
    && request.pairing in s.keys && s.now <= U64_MAX
    && RW.Remembered(s.recent, request.id, s.now).1 && RW.FreshTimestamp(request.timestamp, s.now)
  }

  /** The request is admitted and shown, by a task that has nothing else to do. */
  lemma Shown(j: Joint, k: Joint, request: Request, i: nat, instance: InstanceId) returns (t: Sys)
    requires Leads(j, k) && Attends(k.prompt, request) && request in k.asked
    requires i !in k.prompt.tasks && instance !in k.prompt.instances
    ensures Leads(j, k.(prompt := t)) && t.slot.Some? && t.slot.value.request == request && Young(t.slot.value.identity, t.now)
    ensures t.slot.value.identity.requestId == request.id && t.slot.value.identity.generation == t.app.generation
    ensures t.app == k.prompt.app && t.now == k.prompt.now && t.keys == k.prompt.keys
    ensures i in t.tasks && t.tasks[i] == Equipped(t.slot.value.identity, KindFor(request.action), request.pairing)
  {
    var s := k.prompt;
    var p := PendingRequest(request, Identity(request.id, instance, s.app.generation, s.now));
    var s1 := s.(recent := RW.Remembered(s.recent, request.id, s.now).0, slot := Some(p), instances := s.instances[instance := p],
                 lasting := if s.app.unlockedAt.Some? then s.lasting + {instance} else s.lasting);
    Prompted(j, k, Admits(request, instance), s1);
    var s2 := s1.(tasks := s1.tasks[i := Captured(p.identity, KindFor(request.action))]);
    Prompted(j, k.(prompt := s1), Captures(i), s2);
    t := s2.(tasks := s2.tasks[i := Equipped(p.identity, KindFor(request.action), request.pairing)]);
    Prompted(j, k.(prompt := s2), Equips(i), t);
  }

  /** The right PIN is entered and the request taken. */
  lemma Approved(j: Joint, k: Joint, request: Request, i: nat) returns (t: Sys)
    requires Leads(j, k) && i in k.prompt.tasks && k.prompt.slot.Some? && k.prompt.slot.value.request == request
    requires var identity := k.prompt.slot.value.identity;
             && k.prompt.tasks[i] == Equipped(identity, KindFor(request.action), request.pairing)
             && Young(identity, k.prompt.now) && identity.requestId == request.id
             && identity.generation == k.prompt.app.generation
    requires k.prompt.app.foreground && SessionCurrent(k.prompt.app, k.prompt.now)
    ensures Leads(j, k.(prompt := t)) && t.app == k.prompt.app && t.now == k.prompt.now && t.keys == k.prompt.keys
    ensures i in t.tasks && t.tasks[i].Approving? && t.tasks[i].pending == k.prompt.slot.value && t.tasks[i].key == request.pairing
  {
    var s, p := k.prompt, k.prompt.slot.value;
    var s1 := s.(tasks := s.tasks[i := Judged(p.identity, KindFor(request.action), request.pairing, true)],
                 verified := s.verified + {PinCheck(p.identity.instance, KindFor(request.action), request.pairing)});
    Prompted(j, k, Judges(i, Verified), s1);
    t := Taken(s1, i, Approving(p, request.pairing, s1.now, p.identity.instance in s1.lasting));
    Prompted(j, k.(prompt := s1), Takes(i), t);
  }

  /** The share is copied and the response signed. */
  lemma Answered(j: Joint, k: Joint, request: Request, i: nat) returns (t: Sys, response: Response)
    requires Leads(j, k) && i in k.prompt.tasks && k.prompt.tasks[i].Approving? && k.prompt.tasks[i].key == request.pairing
    requires k.prompt.tasks[i].pending.request == request && Young(k.prompt.tasks[i].pending.identity, k.prompt.now)
    requires k.prompt.app.foreground && k.prompt.app.secrets == Some(request.pairing) && request.pairing in k.prompt.keys
    requires k.prompt.now <= U64_MAX && RW.FreshTimestamp(request.timestamp, k.prompt.now) && request.shareRequested
    ensures Leads(j, k.(prompt := t))
    ensures ValidateResponse(t.signed, request.pairing, request, response, k.prompt.now) == Acceptance.Approved(Some(request.pairing))
  {
    var s := k.prompt;
    var Approving(p, key, takenAt, lasting) := s.tasks[i];
    var s1 := s.(tasks := s.tasks[i := Sharing(p, key, takenAt, lasting, Some(key), true)]);
    Prompted(j, k, Shares(i), s1);
    var s2 := s1.(tasks := s1.tasks[i := Signing(p, key, takenAt, lasting, Some(key), true)]);
    Prompted(j, k.(prompt := s1), Confirms(i), s2);
    var body := Body(request.pairing, request.id, request.code, request.action, true, Some(key), s.now);
    t := Without(s2, i).(signed := s2.signed + {Signature(key, request, body)},
                         sent := s2.sent + [Sent(p.identity.instance, true, key, takenAt, lasting, Some(key), true)]);
    Prompted(j, k.(prompt := s2), Signs(i, Accepted, s.now), t);
    response := Response(body, Signature(key, request, body));
  }

  /** The desktop accepts and opens the vault with the share and the master password. */
  lemma Unlocked(j: Joint, k: Joint, request: Request, response: Response, now: U64) returns (l: Joint)
    requires Leads(j, k) && k.waiting == Some(request) && ReadyToUnlock(k.pairing, request.pairing)
    requires ValidateResponse(k.prompt.signed, request.pairing, request, response, now) == Acceptance.Approved(Some(request.pairing))
    requires request.pairing in k.pairing.minted
    requires var vault := k.pairing.disk.vault.value;
             Unseal(vault, k.pairing.password, k.pairing.minted[request.pairing].share) == Some(vault.plaintext)
    ensures Leads(j, l) && l.pairing.disk == k.pairing.disk
    ensures l.pairing.process.Idle? && l.pairing.process.session.gen == request.pairing
    ensures l.pairing.process.session.plaintext == l.pairing.disk.vault.value.plaintext
  {
    l := k.(pairing := Opened(k.pairing, request.pairing, k.pairing.password), waiting := None);
    Onward(j, k, Accepts(response, now, k.pairing.password), l);
  }

  /**
   Whatever happened before: if the desktop can unlock and the phone app is unlocked with an empty prompt, then asking,
   the right PIN and the master password lead to a session with the contents of the vault.
   */
  lemma {:induction false} UnlockGoesThrough(states: seq<Joint>, moves: seq<Move>, n: nat, request: Request, i: nat, instance: InstanceId)
      returns (k: Joint)
    requires OneDesktop.Run(states, moves) && n < |states|
    requires states[n].waiting.None? && ReadyToUnlock(states[n].pairing, request.pairing)
    requires request.shareRequested && request !in states[n].asked && Attends(states[n].prompt, request)
    requires i !in states[n].prompt.tasks && instance !in states[n].prompt.instances
    ensures Leads(states[n], k) && k.pairing.disk == states[n].pairing.disk
    ensures k.pairing.process.Idle? && k.pairing.process.session.gen == request.pairing
    ensures k.pairing.process.session.plaintext == k.pairing.disk.vault.value.plaintext
  {
    var j := states[n];
    RunKeepsJointInv(states, moves, n);
    ActiveWhileWaiting(j.pairing, request.pairing);
    assert Path([j], []) && [j][0] == j;
    var asked := j.(asked := j.asked + {request}, waiting := Some(request));
    Onward(j, j, Asks(request), asked);
    var shown := Shown(j, asked, request, i, instance);
    var approved := Approved(j, asked.(prompt := shown), request, i);
    var answered, response := Answered(j, asked.(prompt := approved), request, i);
    k := Unlocked(j, asked.(prompt := answered), request, response, j.prompt.now);
  }
}
