/** Recovery of an interrupted replacement: the desktop's loop, the phone's two answers, and what they reach. */
module Reconcile {
  import opened PairingTypes
  import opened DesktopFileStore
  import opened GenerationStores
  import PP = PairingProtocol
  import A = AppSession
  import PT = PairingTheorems
  import PR = PairingRuns
  import PH = PhoneHistory
  import P = PhoneStore
  import D = DesktopDisk

  /** The phone can serve g for this desktop. */
  predicate Holds(p: P.Store, g: Gen) {
    P.Loadable(p, g) && p.bundles[g].cli == PP.DESKTOP
  }

  /** The two durable states fit together well enough for recovery to go through. */
  predicate Resumable(d: D.Disk, p: P.Store) {
    match d.txn
    case None => d.record.Some? ==> p.active == Some(d.record.value.gen)
    case Some(txn) =>
      && Holds(p, txn.gen)
      && match txn.phase
         case Prepared =>
           && p.pending == Some(txn.gen) && p.active != Some(txn.gen)
           && d.pendingVault.Some? && d.pendingRecord == Some(D.Record(txn.gen, PP.PHONE))
           && D.RollbackCaptured(d, txn)
         case PhoneCommitted =>
           && P.Activatable(p, txn.gen) && D.Promotable(d)
           && D.PendingElse(d.pendingRecord, d.record) == Some(D.Record(txn.gen, PP.PHONE))
         case LocallyActivated =>
           && (p.active == Some(txn.gen) || P.Activatable(p, txn.gen))
           && d.record == Some(D.Record(txn.gen, PP.PHONE)) && d.pendingRecord.None?
         case FullyActivated =>
           p.active == Some(txn.gen) && d.record == Some(D.Record(txn.gen, PP.PHONE))
  }

  /** Every reachable state of the two devices, crash states included, can be recovered from. */
  lemma {:induction false} ReachableIsResumable(states: seq<PP.Sys>, events: seq<PP.Event>, i: nat)
    requires PT.CarefulRun(states, events, i)
    ensures Resumable(states[i].disk, states[i].phone)
  {
    PT.RunKeepsInv(states, events, i);
    var s := states[i];
    if s.disk.txn.Some? {
      assert Holds(s.phone, s.disk.txn.value.gen);
    }
  }

  // ----- what the phone's answers keep

  /** The request that recovery sends in the phase found on disk. */
  predicate Requested(d: D.Disk, op: P.Op) {
    && d.txn.Some?
    && match d.txn.value.phase
       case Prepared => op == P.Commit(d.txn.value.gen)
       case LocallyActivated => op == P.Activate(d.txn.value.gen)
       case _ => false
  }

  /** later is earlier followed by writes made in answering op, authorization included. */
  ghost predicate Answering(op: P.Op, earlier: seq<PH.Stamped>, later: seq<PH.Stamped>) {
    && earlier <= later
    && forall i :: |earlier| <= i < |later| ==> later[i].op == op || later[i].op == P.Check
  }

  /** No write drops the material of a generation that a request names and a pointer keeps. */
  lemma WriteKeepsHeld(p: P.Store, op: P.Op, w: P.Write, g: Gen)
    requires P.Inv(p) && P.Legal(op, p, w) && (op == P.Check || op == P.Commit(g) || op == P.Activate(g))
    requires Holds(p, g) && (p.active == Some(g) || p.pending == Some(g))
    ensures Holds(P.Apply(p, w), g)
  {
  }

  lemma WriteKeepsResumable(d: D.Disk, p: P.Store, op: P.Op, w: P.Write)
    requires P.Inv(p) && Resumable(d, p) && P.Legal(op, p, w)
    requires op == P.Check || Requested(d, op)
    ensures Resumable(d, P.Apply(p, w))
  {
    if d.txn.Some? {
      WriteKeepsHeld(p, op, w, d.txn.value.gen);
      match w {
        case SetPointer(_, _) =>
        case ClearPointer(q) =>
          match q {
            case Staging =>
            case Pending =>
            case Committed =>
            case Retiring =>
          }
        case DropBundle(_) =>
        case DropKey(_) =>
        case ClearAttempts(_) =>
      }
    }
  }

  lemma {:induction false} AnswerKeepsResumable(d: D.Disk, origin: P.Store, op: P.Op, earlier: seq<PH.Stamped>, later: seq<PH.Stamped>)
    requires P.Inv(origin) && PH.Lawful(origin, later) && Answering(op, earlier, later) && Requested(d, op)
    requires Resumable(d, PH.ApplyAll(origin, earlier))
    ensures Resumable(d, PH.ApplyAll(origin, later))
  {
    if later == earlier {
    } else {
      var before := later[..|later| - 1];
      assert earlier <= before;
      AnswerKeepsResumable(d, origin, op, earlier, before);
      PH.LawfulKeepsInv(origin, before);
      WriteKeepsResumable(d, PH.ApplyAll(origin, before), later[|later| - 1].op, later[|later| - 1].write);
    }
  }

  predicate Within(bundles: map<Gen, P.Bundle>, known: map<Gen, P.Bundle>) {
    forall g :: g in bundles ==> g in known && bundles[g] == known[g]
  }

  /** Answering adds no bundle and changes none. */
  lemma {:induction false} AnswerAddsNoBundle(origin: P.Store, op: P.Op, earlier: seq<PH.Stamped>, later: seq<PH.Stamped>)
    requires PH.Lawful(origin, later) && Answering(op, earlier, later) && !op.Publish?
    ensures Within(PH.ApplyAll(origin, later).bundles, PH.ApplyAll(origin, earlier).bundles)
  {
    if later == earlier {
    } else {
      var before := later[..|later| - 1];
      assert earlier <= before;
      assert P.Legal(later[|later| - 1].op, PH.ApplyAll(origin, before), later[|later| - 1].write);
      AnswerAddsNoBundle(origin, op, earlier, before);
    }
  }

  // ----- what the desktop's writes keep

  /** The vault and record that recovery is going to end with. */
  function Destined(d: D.Disk): (Option<Blob>, Option<D.Record>) {
    if D.InPhase(d, D.Prepared) || D.InPhase(d, D.PhoneCommitted)
    then (D.PendingElse(d.pendingVault, d.vault), D.PendingElse(d.pendingRecord, d.record))
    else (d.vault, d.record)
  }

  /** Marking the phase that the phone has acknowledged. */
  lemma MarkKeepsResumable(d: D.Disk, p: P.Store)
    requires Resumable(d, p) && d.txn.Some?
    ensures D.InPhase(d, D.Prepared) && p.committed == Some(d.txn.value.gen) ==>
              var e := D.Advanced(d, D.PhoneCommitted); Resumable(e, p) && Destined(e) == Destined(d)
    ensures D.InPhase(d, D.LocallyActivated) && p.active == Some(d.txn.value.gen) ==>
              var e := D.Advanced(d, D.FullyActivated); Resumable(e, p) && Destined(e) == Destined(d)
  {
  }

  /** Phases still ahead. */
  function Remaining(d: D.Disk): nat {
    match d.txn
    case None => 0
    case Some(txn) =>
      match txn.phase
      case Prepared => 4
      case PhoneCommitted => 3
      case LocallyActivated => 2
      case FullyActivated => 1
  }

  /** How often the recovery loop runs before it is done. */
  function Rounds(d: D.Disk): nat {
    match d.txn
    case None => 0
    case Some(txn) =>
      match txn.phase
      case Prepared => 2
      case PhoneCommitted => 1
      case LocallyActivated => 1
      case FullyActivated => 0
  }

  /** Nothing is left for the desktop to do on its own. */
  predicate Settled(d: D.Disk) {
    PR.Waits(d) || D.Recovered(d)
  }

  method Recover(files: DesktopFiles, ghost p: P.Store, ghost q: PP.Process) returns (r: Status)
    requires files.Valid() && Resumable(files.View(), p)
    modifies files
    ensures files.Valid() && Resumable(files.View(), p) && Destined(files.View()) == old(Destined(files.View()))
    ensures old(files.txn).Some? && files.txn.Some? ==> files.txn.value.gen == old(files.txn).value.gen
    ensures r.Ok? ==> files.View() == D.AfterRecovery(old(files.View()))
    ensures r.Ok? ==> Settled(files.View()) && Rounds(files.View()) == old(Rounds(files.View()))
    ensures old(files.txn).None? ==> files.txn.None?
    ensures !files.faulty ==> r.Ok?
    ensures r.Err? ==> r.error == StorageFailure
    ensures Remaining(files.View()) <= old(Remaining(files.View()))
    ensures old(files.Lawful()) ==> files.Lawful()
    ensures old(files.Lawful()) && PR.Drives(q) && PR.Linked(q, old(files.View()), p) ==> PR.Linked(q, files.View(), p)
  {
    r := files.RecoverTransaction();
    if old(files.Lawful()) && PR.Drives(q) && PR.Linked(q, old(files.View()), p) {
      PR.OwnWritesLinked(q, files.origin, old(files.log), files.log, p);
    }
  }

  // ----- the phone's side

  /** The phone has what it takes to carry the request out. */
  predicate Answerable(p: P.Store, op: P.Op) {
    match op
    case Commit(g) => Holds(p, g) && p.pending == Some(g) && p.active != Some(g)
    case Activate(g) => Holds(p, g) && (p.active == Some(g) || P.Activatable(p, g))
    case _ => false
  }

  /** Finishing the previous activation first does not get in the way of the request. */
  lemma AnswerableAfterwards(p: P.Store, op: P.Op)
    requires P.Inv(p) && Answerable(p, op)
    ensures op.Commit? ==> P.CommittedBy(P.Finalized(p), op.g).ok
    ensures op.Activate? ==> P.Activated(P.Finalized(p), op.g).ok
    ensures Holds(P.Finalized(p), op.g) && (P.Finalized(p).active == Some(op.g) || P.Finalized(p).pending == Some(op.g))
  {
  }

  lemma AnswerableIsCarriedOut(p: P.Store, op: P.Op)
    requires Answerable(p, op)
    ensures op.Commit? ==> P.CommittedBy(p, op.g).ok
    ensures op.Activate? ==> P.Activated(p, op.g).ok
  {
  }

  /** A request fails for its storage, or because in the state it leaves it could not be carried out for this peer. */
  predicate FailsFor(error: Error, faulty: bool, p: P.Store, op: P.Op, peer: Node) {
    || (faulty && error == StorageFailure)
    || (error == Refused && !(peer == PP.DESKTOP && Answerable(p, op)))
  }

  /** Only the desktop that generation g was set up with may ask about it. */
  method Authorize(phone: GenerationStore, ghost op: P.Op, g: Gen, peer: Node) returns (r: Status)
    requires phone.Valid() && (op == P.Commit(g) || op == P.Activate(g))
    modifies phone
    ensures phone.Valid() && Answering(op, old(phone.log), phone.log)
    ensures r.Ok? ==> g in old(phone.bundles) && old(phone.bundles)[g].cli == peer
    ensures r.Ok? ==> phone.active == Some(g) || phone.pending == Some(g) || phone.committed == Some(g)
    ensures !phone.faulty ==> phone.View() == P.Finalized(old(phone.View()))
    ensures !phone.faulty && peer == PP.DESKTOP && Answerable(old(phone.View()), op) ==> r.Ok?
    ensures r.Err? ==> FailsFor(r.error, phone.faulty, phone.View(), op, peer)
  {
    if Answerable(old(phone.View()), op) {
      AnswerableAfterwards(old(phone.View()), op);
    }
    var node :- phone.GenerationCliNode(g);
    if node != Some(peer) {
      return Err(Refused);
    }
    AnswerAddsNoBundle(phone.origin, op, old(phone.log), phone.log);
    r := DONE;
  }

  method ServeCommit(phone: GenerationStore, g: Gen, peer: Node) returns (r: Status)
    requires phone.Valid()
    modifies phone
    ensures phone.Valid() && Answering(P.Commit(g), old(phone.log), phone.log)
    ensures r.Ok? ==> g in old(phone.bundles) && old(phone.bundles)[g].cli == peer
    ensures r.Ok? ==> phone.committed == Some(g) || phone.active == Some(g)
    ensures !phone.faulty && peer == PP.DESKTOP && Answerable(old(phone.View()), P.Commit(g)) ==> r.Ok?
    ensures r.Err? ==> FailsFor(r.error, phone.faulty, phone.View(), P.Commit(g), peer)
  {
    if Answerable(phone.View(), P.Commit(g)) {
      AnswerableAfterwards(phone.View(), P.Commit(g));
    }
    var _ :- Authorize(phone, P.Commit(g), g, peer);
    r := phone.CommitPendingGeneration(g);
    if Answerable(phone.View(), P.Commit(g)) {
      AnswerableIsCarriedOut(phone.View(), P.Commit(g));
    }
  }

  method ServeActivate(phone: GenerationStore, g: Gen, peer: Node) returns (r: Status)
    requires phone.Valid()
    modifies phone
    ensures phone.Valid() && Answering(P.Activate(g), old(phone.log), phone.log)
    ensures r.Ok? ==> g in old(phone.bundles) && old(phone.bundles)[g].cli == peer
    ensures r.Ok? ==> phone.active == Some(g)
    ensures r.Ok? ==> phone.staging != Some(g) && phone.pending != Some(g) && phone.committed != Some(g)
    ensures !phone.faulty && peer == PP.DESKTOP && Answerable(old(phone.View()), P.Activate(g)) ==> r.Ok?
    ensures r.Err? ==> FailsFor(r.error, phone.faulty, phone.View(), P.Activate(g), peer)
  {
    if Answerable(phone.View(), P.Activate(g)) {
      AnswerableAfterwards(phone.View(), P.Activate(g));
    }
    var _ :- Authorize(phone, P.Activate(g), g, peer);
    var activated := phone.ActivateGeneration(g);
    if Answerable(phone.View(), P.Activate(g)) {
      AnswerableIsCarriedOut(phone.View(), P.Activate(g));
    }
    r := if activated.Ok? then DONE else Err(activated.error);
  }

  /** The whole answer to an activation request: before it acknowledges, the app locks, so no superseded secrets stay in memory. */
  method AnswerActivate(phone: GenerationStore, app: A.AppState, g: Gen, peer: Node) returns (r: Status)
    requires phone.Valid()
    modifies phone, app
    ensures phone.Valid() && Answering(P.Activate(g), old(phone.log), phone.log)
    ensures r.Ok? ==> phone.active == Some(g) && g in old(phone.bundles) && old(phone.bundles)[g].cli == peer
    ensures app.View() == if r.Ok? then A.Locked(old(app.View())).(isSetup := true) else old(app.View())
    ensures r.Ok? ==> app.secrets.None? && app.unlockedAt.None?
  {
    var _ :- ServeActivate(phone, g, peer);
    app.Lock();
    app.isSetup := true;
    r := DONE;
  }

  // ----- the desktop's side

  /** What an answer leaves: recoverable states, and a run of the two devices wherever it was cut. */
  lemma {:induction false} AnswerKeeps(q: PP.Process, d: D.Disk, origin: P.Store, earlier: seq<PH.Stamped>, later: seq<PH.Stamped>)
    requires P.Inv(origin) && PH.Lawful(origin, later) && PR.Waits(d) && Answering(PR.OpOf(d.txn.value), earlier, later)
    requires Resumable(d, PH.ApplyAll(origin, earlier))
    ensures Resumable(d, PH.ApplyAll(origin, later))
    ensures Within(PH.ApplyAll(origin, later).bundles, PH.ApplyAll(origin, earlier).bundles)
    ensures PR.Linked(q, d, PH.ApplyAll(origin, earlier)) ==>
              PR.LinkedSent(q, d, PH.ApplyAll(origin, later), PR.RequestOf(d.txn.value))
  {
    AnswerKeepsResumable(d, origin, PR.OpOf(d.txn.value), earlier, later);
    AnswerAddsNoBundle(origin, PR.OpOf(d.txn.value), earlier, later);
    if PR.Linked(q, d, PH.ApplyAll(origin, earlier)) {
      PR.RequestLinked(q, d, PH.ApplyAll(origin, earlier));
      PR.AnswerLinked(q, d, origin, earlier, later);
    }
  }

  /** The phone has done what the request of this phase asks for. */
  predicate Done(d: D.Disk, p: P.Store) {
    && d.txn.Some?
    && (d.txn.value.phase == D.Prepared ==> p.committed == Some(d.txn.value.gen))
    && (d.txn.value.phase == D.LocallyActivated ==> p.active == Some(d.txn.value.gen))
  }

  lemma ExchangeLinked(q: PP.Process, d: D.Disk, p: P.Store, done: bool)
    requires PR.Waits(d) && PR.LinkedSent(q, d, p, PR.RequestOf(d.txn.value)) && (done ==> Done(d, p))
    ensures PR.Linked(q, d, p)
    ensures done ==> PR.LinkedSent(q, d, p, PR.AckOf(d.txn.value))
  {
    PR.SentIsLinked(q, d, p, PR.RequestOf(d.txn.value));
    if done {
      PR.AckLinked(q, d, p);
    }
  }

  /**
   Sends the request of the current phase to the phone that the pairing record names. The program learns of a failure
   there only by the missing acknowledgement; its cause is kept here, and it is never a refusal.
   */
  method SendRecoveryTransition(files: DesktopFiles, phone: GenerationStore, online: bool) returns (r: Status)
    requires phone.Valid() && Resumable(files.View(), phone.View()) && PR.Waits(files.View())
    modifies phone
    ensures phone.Valid() && Resumable(files.View(), phone.View()) && Within(phone.bundles, old(phone.bundles))
    ensures Answering(PR.OpOf(files.txn.value), old(phone.log), phone.log)
    ensures r.Ok? ==> Done(files.View(), phone.View())
    ensures r.Ok? && files.txn.value.phase == D.LocallyActivated ==>
              var g := Some(files.txn.value.gen); phone.staging != g && phone.pending != g && phone.committed != g
    ensures online && !phone.faulty ==> r.Ok?
    ensures r.Err? ==> (!online && r.error == Unreachable) || (phone.faulty && r.error == StorageFailure)
    ensures PR.Linked(PP.Down, files.View(), old(phone.View())) ==>
              && PR.Linked(PP.Down, files.View(), phone.View())
              && (r.Ok? ==> PR.LinkedSent(PP.Down, files.View(), phone.View(), PR.AckOf(files.txn.value)))
  {
    var requestLost, answerLost := *, *;
    var target := if files.pendingRecord.Some? then files.pendingRecord else files.record;
    var txn := files.txn.value;
    if target.value.phone != PP.PHONE || (!online && requestLost) {
      return Err(Unreachable);
    }
    var answer;
    if txn.phase == D.Prepared {
      answer := ServeCommit(phone, txn.gen, PP.DESKTOP);
    } else {
      answer := ServeActivate(phone, txn.gen, PP.DESKTOP);
    }
    AnswerKeeps(PP.Down, files.View(), phone.origin, old(phone.log), phone.log);
    if PR.Linked(PP.Down, files.View(), old(phone.View())) {
      ExchangeLinked(PP.Down, files.View(), phone.View(), answer.Ok?);
    }
    r := if !online && answerLost then Err(Unreachable) else answer;
  }

  /** Marks the phase that the acknowledgement allows. */
  method MarkPhase(files: DesktopFiles, ghost p: P.Store, ghost q: PP.Process) returns (r: Status)
    requires files.Valid() && Resumable(files.View(), p) && PR.Waits(files.View()) && Done(files.View(), p)
    modifies files
    ensures files.Valid() && Resumable(files.View(), p) && Destined(files.View()) == old(Destined(files.View()))
    ensures files.txn.Some? && files.txn.value.gen == old(files.txn).value.gen
    ensures r.Ok? ==> D.InPhase(files.View(), PR.PhaseAfter(old(files.txn).value))
    ensures !files.faulty ==> r.Ok?
    ensures r.Err? ==> r.error == StorageFailure
    ensures old(files.Lawful()) ==> files.Lawful()
    ensures PR.LinkedSent(q, old(files.View()), p, PR.AckOf(old(files.txn).value)) ==> PR.Linked(q, files.View(), p)
  {
    MarkKeepsResumable(files.View(), p);
    if PR.LinkedSent(q, files.View(), p, PR.AckOf(files.txn.value)) {
      PR.SentIsLinked(q, files.View(), p, PR.AckOf(files.txn.value));
      PR.MarkLinked(q, files.View(), p);
    }
    var phase := if files.txn.value.phase == D.Prepared then D.PhoneCommitted else D.FullyActivated;
    r := files.AdvanceTransaction(phase, files.txn.value.gen);
  }

  /** The request of the phase and, once answered, the phase mark. */
  method Resume(files: DesktopFiles, phone: GenerationStore, online: bool) returns (r: Status)
    requires files.Valid() && phone.Valid() && Resumable(files.View(), phone.View()) && PR.Waits(files.View())
    modifies files, phone
    ensures files.Valid() && phone.Valid() && Resumable(files.View(), phone.View()) && Within(phone.bundles, old(phone.bundles))
    ensures Destined(files.View()) == old(Destined(files.View()))
    ensures files.txn.Some? && files.txn.value.gen == old(files.txn).value.gen
    ensures online && !files.faulty && !phone.faulty ==> r.Ok?
    ensures r.Err? ==> r.error != Refused
    ensures r.Ok? ==> D.InPhase(files.View(), PR.PhaseAfter(old(files.txn).value))
    ensures old(files.Lawful()) ==> files.Lawful()
    ensures PR.Linked(PP.Down, old(files.View()), old(phone.View())) ==> PR.Linked(PP.Down, files.View(), phone.View())
  {
    r := SendRecoveryTransition(files, phone, online);
    if r.Ok? {
      r := MarkPhase(files, phone.View(), PP.Down);
    }
  }

  /** One round of the loop: request, mark, and what the desktop then does on its own. */
  method Round(files: DesktopFiles, phone: GenerationStore, online: bool) returns (r: Status)
    requires files.Valid() && phone.Valid() && Resumable(files.View(), phone.View()) && PR.Waits(files.View())
    modifies files, phone
    ensures files.Valid() && phone.Valid() && Resumable(files.View(), phone.View()) && Within(phone.bundles, old(phone.bundles))
    ensures Destined(files.View()) == old(Destined(files.View()))
    ensures files.txn.Some? ==> files.txn.value.gen == old(files.txn).value.gen
    ensures online && !files.faulty && !phone.faulty ==> r.Ok?
    ensures r.Err? ==> r.error != Refused
    ensures r.Err? && files.txn.None? ==> files.faulty && r.error == StorageFailure
    ensures r.Ok? ==> Settled(files.View()) && 1 + Rounds(files.View()) == old(Rounds(files.View()))
    ensures old(files.Lawful()) ==> files.Lawful()
    ensures old(files.Lawful()) && PR.Linked(PP.Down, old(files.View()), old(phone.View())) ==>
              PR.Linked(PP.Down, files.View(), phone.View())
  {
    r := Resume(files, phone, online);
    if r.Ok? {
      r := Recover(files, phone.View(), PP.Down);
    }
  }

  /**
   Runs at the start of every command. Storage may fail and messages may be lost; whatever happens, the states
   left behind are again ones that recovery can start from, and no branch that gives up is taken. Started in a state
   of some run of the two devices, it leaves one. Without failures it ends on the transaction's generation.
   */
  method ReconcileTransaction(files: DesktopFiles, phone: GenerationStore, online: bool) returns (r: Status, rounds: nat)
    requires files.Valid() && phone.Valid() && Resumable(files.View(), phone.View())
    modifies files, phone
    ensures files.Valid() && phone.Valid() && Resumable(files.View(), phone.View()) && Within(phone.bundles, old(phone.bundles))
    ensures Destined(files.View()) == old(Destined(files.View()))
    ensures online && !files.faulty && !phone.faulty ==> r.Ok?
    ensures r.Err? ==> r.error != Refused
    ensures r.Err? && files.txn.None? ==> files.faulty && r.error == StorageFailure
    ensures old(files.txn).None? ==> phone.View() == old(phone.View())
    ensures r.Ok? ==> D.Recovered(files.View()) && rounds == old(Rounds(files.View()))
    ensures r.Ok? && old(files.txn).Some? ==>
              files.record == Some(D.Record(old(files.txn).value.gen, PP.PHONE)) && phone.active == Some(old(files.txn).value.gen)
    ensures old(files.Lawful()) ==> files.Lawful()
    ensures old(files.Lawful()) && PR.Linked(PP.Down, old(files.View()), old(phone.View())) ==>
              PR.Linked(PP.Down, files.View(), phone.View())
  {
    rounds := 0;
    ghost var before, total := Destined(files.View()), Rounds(files.View());
    ghost var linked := files.Lawful() && PR.Linked(PP.Down, files.View(), phone.View());
    DestinedRecord(files.View(), phone.View());
    r := Recover(files, phone.View(), PP.Down);
    if r.Err? {
      return;
    }
    while files.txn.Some?
      invariant r.Ok? && files.Valid() && phone.Valid() && Resumable(files.View(), phone.View())
      invariant Within(phone.bundles, old(phone.bundles))
      invariant old(files.txn).None? ==> files.txn.None? && phone.View() == old(phone.View())
      invariant Destined(files.View()) == before
      invariant Settled(files.View())
      invariant rounds + Rounds(files.View()) == total
      invariant old(files.Lawful()) ==> files.Lawful()
      invariant linked ==> PR.Linked(PP.Down, files.View(), phone.View())
      decreases Rounds(files.View())
    {
      rounds := rounds + 1;
      r := Round(files, phone, online);
      if r.Err? {
        return;
      }
    }
  }

  /** A transaction is headed for the record of its own generation. */
  lemma DestinedRecord(d: D.Disk, p: P.Store)
    requires Resumable(d, p)
    ensures d.txn.Some? ==> Destined(d).1 == Some(D.Record(d.txn.value.gen, PP.PHONE))
  {
  }
}
