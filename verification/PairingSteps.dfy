/** The remaining steps: setup tasks, messages, the phone app's memory and the desktop process. */
module PairingSteps {
  import opened PairingTypes
  import opened PairingProtocol
  import opened PairingInvariant
  import PairingSafety
  import P = PhoneStore
  import D = DesktopDisk

  // ----- the phone's steps

  /** Steps that touch neither durable state nor the desktop process. */
  lemma VolatileKeeps(s: Sys, t: Sys)
    requires Inv(s) && SetupsOk(t) && MailOk(t)
    requires t == s.(setups := t.setups, hellos := t.hellos, net := t.net, memory := t.memory)
    requires s.setups.Keys <= t.setups.Keys
    requires t.memory.Some? ==> t.memory.value in s.wasActive
    requires forall g: Gen :: Engaged(s, g) && Offered(s, g) ==> Offered(t, g)
    ensures Inv(t)
  {
    VolatileKeepsDesktop(s, t);
  }

  lemma VolatileKeepsDesktop(s: Sys, t: Sys)
    requires Agreement(s) && PasswordsOk(s) && ProcessOk(s)
    requires t == s.(setups := t.setups, hellos := t.hellos, net := t.net, memory := t.memory)
    requires forall g: Gen :: Engaged(s, g) && Offered(s, g) ==> Offered(t, g)
    ensures Agreement(t) && PasswordsOk(t) && ProcessOk(t)
  {
    assert s.disk.txn.Some? ==> Engaged(s, s.disk.txn.value.gen);
    assert s.process.Pairing? ==> Engaged(s, s.process.exchange.gen);
  }

  predicate StageMayChange(s: Sys, g: Gen, stage: Stage) {
    match stage
    case Preparing => g !in s.setups
    case Signed =>
      g in s.setups && s.setups[g] == Preparing && s.phone.pending == Some(g) && g in s.phone.bundles && g in s.phone.keys
    case Dialled => g in s.setups && s.setups[g] == Signed
    case Aborting => g in s.setups && (s.setups[g] == Preparing || s.setups[g] == Signed)
    case Dead => g in s.setups
  }

  lemma StageKeepsSetups(s: Sys, g: Gen, stage: Stage, t: Sys)
    requires SetupsOk(s) && StageMayChange(s, g, stage) && t == s.(setups := s.setups[g := stage])
    requires g !in s.setups ==> g !in s.wasActive && g !in s.hellos && !Engaged(s, g)
    ensures SetupsOk(t)
  {
    assert forall h :: Engaged(t, h) == Engaged(s, h);
  }

  lemma StageKeepsMail(s: Sys, g: Gen, stage: Stage, t: Sys)
    requires SetupsOk(s) && MailOk(s) && StageMayChange(s, g, stage) && t == s.(setups := s.setups[g := stage])
    requires g !in s.setups ==> g !in s.hellos
    ensures MailOk(t)
  {
    assert forall h :: Engaged(t, h) == Engaged(s, h) && TxnFor(t, h) == TxnFor(s, h);
  }

  lemma UnknownIsUntouched(s: Sys, g: Gen)
    requires Inv(s) && g !in s.setups
    ensures g !in s.wasActive && g !in s.hellos && !Engaged(s, g)
  {
  }

  lemma StageKeeps(s: Sys, g: Gen, stage: Stage, t: Sys)
    requires Inv(s) && StageMayChange(s, g, stage) && t == s.(setups := s.setups[g := stage])
    ensures Inv(t)
  {
    if g !in s.setups {
      UnknownIsUntouched(s, g);
    }
    StageKeepsSetups(s, g, stage, t);
    StageKeepsMail(s, g, stage, t);
    VolatileKeeps(s, t);
  }

  /** A hello enters its stream. */
  lemma HelloKeeps(s: Sys, g: Gen, t: Sys)
    requires Inv(s) && t == s.(hellos := s.hellos + {g})
    requires OfferedHere(s, g) && !Engaged(s, g) && s.setups[g] != Signed
    ensures Inv(t)
  {
    assert forall h :: Engaged(t, h) == Engaged(s, h) && TxnFor(t, h) == TxnFor(s, h) && Offered(t, h) == Offered(s, h);
    VolatileKeeps(s, t);
  }

  lemma DialKeeps(s: Sys, g: Gen, t: Sys)
    requires Inv(s) && PhoneStep(s, SetupDials(g), t)
    ensures Inv(t)
  {
    var dialled := s.(setups := s.setups[g := Dialled]);
    StageKeeps(s, g, Dialled, dialled);
    if g in s.minted && s.minted[g].cli == DESKTOP {
      HelloKeeps(dialled, g, t);
    }
  }

  lemma RestartKeeps(s: Sys, t: Sys)
    requires Inv(s) && PhoneStep(s, PhoneRestarts, t)
    ensures Inv(t)
  {
    assert forall h :: Engaged(t, h) == Engaged(s, h) && TxnFor(t, h) == TxnFor(s, h);
    assert forall h :: Offered(s, h) ==> Offered(t, h);
    VolatileKeeps(s, t);
  }

  /** A message whose claim is already true enters the network. */
  lemma SendKeeps(s: Sys, m: Message, t: Sys)
    requires Inv(s) && t == s.(net := s.net + {m})
    requires match m
             case Commit(g) => TxnFor(s, g) || g in s.wasActive
             case Activate(g) => (TxnFor(s, g) && D.InPhase(s.disk, D.LocallyActivated)) || g in s.wasActive
             case CommitAck(g) => g in s.wasCommitted || g in s.wasActive
             case ActivateAck(g) => g in s.wasActive
             case _ => true
    ensures Inv(t)
  {
    SendKeepsMail(s, m, t);
    assert forall h :: Engaged(t, h) == Engaged(s, h) && Offered(t, h) == Offered(s, h);
    VolatileKeeps(s, t);
  }

  lemma SendKeepsMail(s: Sys, m: Message, t: Sys)
    requires MailOk(s) && t == s.(net := s.net + {m})
    requires match m
             case Commit(g) => TxnFor(s, g) || g in s.wasActive
             case Activate(g) => (TxnFor(s, g) && D.InPhase(s.disk, D.LocallyActivated)) || g in s.wasActive
             case CommitAck(g) => g in s.wasCommitted || g in s.wasActive
             case ActivateAck(g) => g in s.wasActive
             case _ => true
    ensures MailOk(t)
  {
    assert forall h :: Engaged(t, h) == Engaged(s, h) && Offered(t, h) == Offered(s, h) && TxnFor(t, h) == TxnFor(s, h);
  }

  lemma MemoryKeeps(s: Sys, memory: Option<Gen>, t: Sys)
    requires Inv(s) && t == s.(memory := memory) && (memory.Some? ==> memory == s.phone.active)
    ensures Inv(t)
  {
    assert forall h :: Engaged(t, h) == Engaged(s, h) && Offered(t, h) == Offered(s, h) && TxnFor(t, h) == TxnFor(s, h);
    VolatileKeeps(s, t);
  }

  lemma PhoneStepKeepsInv(s: Sys, e: Event, t: Sys)
    requires Inv(s) && PhoneStep(s, e, t)
    ensures Inv(t)
  {
    match e {
      case PhoneWrites(op, w) => PairingSafety.PhoneWriteKeepsInv(s, op, w);
      case SetupStarts(g) => StageKeeps(s, g, Preparing, t);
      case SetupSigns(g) => StageKeeps(s, g, Signed, t);
      case SetupDials(g) => DialKeeps(s, g, t);
      case SetupFails(g) => StageKeeps(s, g, Aborting, t);
      case SetupEnds(g) => StageKeeps(s, g, Dead, t);
      case PhoneSendsReady(g) => SendKeeps(s, Ready(g), t);
      case PhoneAcksCommit(g) => SendKeeps(s, CommitAck(g), t);
      case PhoneAcksActivate(g) => SendKeeps(s, ActivateAck(g), t);
      case PhoneUnlocks => MemoryKeeps(s, s.phone.active, t);
      case PhoneLocks => MemoryKeeps(s, None, t);
      case PhoneRestarts => RestartKeeps(s, t);
    }
  }

  // ----- the desktop's steps

  /** The part of the invariant that desktop steps change. */
  ghost predicate DesktopOk(s: Sys) {
    Agreement(s) && PasswordsOk(s) && ProcessOk(s)
  }

  /** t differs from s on the desktop only, and forgets no transaction but an activated one. */
  ghost predicate OnDesktop(s: Sys, t: Sys) {
    && t == s.(disk := t.disk, process := t.process, password := t.password)
    && (forall g: Gen :: Engaged(t, g) ==> Engaged(s, g))
    && (s.disk.txn.Some? ==>
          s.disk.txn.value.gen in s.wasActive
          || (t.disk.txn.Some? && t.disk.txn.value.gen == s.disk.txn.value.gen
              && (t.disk.txn.value.phase == s.disk.txn.value.phase || s.disk.txn.value.phase == D.Prepared
                  || t.disk.txn.value.phase == D.LocallyActivated || t.disk.txn.value.phase == D.FullyActivated)))
  }

  lemma OnDesktopKeepsSetups(s: Sys, t: Sys)
    requires SetupsOk(s) && OnDesktop(s, t)
    ensures SetupsOk(t)
  {
    assert forall h :: Offered(t, h) == Offered(s, h);
  }

  lemma OnDesktopKeepsMail(s: Sys, t: Sys)
    requires HistoryOk(s) && MailOk(s) && OnDesktop(s, t)
    ensures MailOk(t)
  {
    assert forall h :: OfferedHere(t, h) == OfferedHere(s, h);
  }

  lemma DesktopOnlyKeeps(s: Sys, t: Sys)
    requires Inv(s) && DesktopOk(t) && OnDesktop(s, t)
    ensures Inv(t)
  {
    OnDesktopKeepsSetups(s, t);
    OnDesktopKeepsMail(s, t);
  }

  lemma WritePendingVaultKeeps(s: Sys, b: Blob, t: Sys)
    requires HistoryOk(s) && DesktopOk(s) && DesktopStep(s, DesktopWrites(D.WritePendingVault(b)), t)
    ensures DesktopOk(t) && OnDesktop(s, t)
  {
  }

  lemma WritePendingRecordKeeps(s: Sys, r: D.Record, t: Sys)
    requires HistoryOk(s) && DesktopOk(s) && DesktopStep(s, DesktopWrites(D.WritePendingRecord(r)), t)
    ensures DesktopOk(t) && OnDesktop(s, t)
  {
  }

  lemma CopyVaultToRollbackKeeps(s: Sys, t: Sys)
    requires HistoryOk(s) && DesktopOk(s) && DesktopStep(s, DesktopWrites(D.CopyVaultToRollback), t)
    ensures DesktopOk(t) && OnDesktop(s, t)
  {
  }

  lemma CopyRecordToRollbackKeeps(s: Sys, t: Sys)
    requires HistoryOk(s) && DesktopOk(s) && DesktopStep(s, DesktopWrites(D.CopyRecordToRollback), t)
    ensures DesktopOk(t) && OnDesktop(s, t)
  {
  }

  lemma PromoteVaultKeeps(s: Sys, t: Sys)
    requires HistoryOk(s) && DesktopOk(s) && DesktopStep(s, DesktopWrites(D.PromoteVault), t)
    ensures DesktopOk(t) && OnDesktop(s, t)
  {
  }

  lemma PromoteRecordKeeps(s: Sys, t: Sys)
    requires HistoryOk(s) && DesktopOk(s) && DesktopStep(s, DesktopWrites(D.PromoteRecord), t)
    ensures DesktopOk(t) && OnDesktop(s, t)
  {
  }

  lemma RemoveKeeps(s: Sys, f: D.File, t: Sys)
    requires HistoryOk(s) && DesktopOk(s) && DesktopStep(s, DesktopWrites(D.Remove(f)), t)
    ensures DesktopOk(t) && OnDesktop(s, t)
  {
  }

  lemma PrepareKeeps(s: Sys, txn: D.Txn, t: Sys)
    requires HistoryOk(s) && MintedOk(s) && DesktopOk(s) && txn.phase == D.Prepared
    requires DesktopStep(s, DesktopWrites(D.WriteTxn(txn)), t)
    ensures DesktopOk(t) && OnDesktop(s, t)
  {
  }

  lemma AdvanceKeeps(s: Sys, txn: D.Txn, t: Sys)
    requires P.Inv(s.phone) && HistoryOk(s) && MailOk(s) && DesktopOk(s) && txn.phase != D.Prepared
    requires DesktopStep(s, DesktopWrites(D.WriteTxn(txn)), t)
    ensures DesktopOk(t) && OnDesktop(s, t)
  {
    match txn.phase {
      case PhoneCommitted =>
      case LocallyActivated =>
      case FullyActivated =>
    }
  }

  lemma DesktopWriteKeepsInv(s: Sys, w: D.Write, t: Sys)
    requires Inv(s) && DesktopStep(s, DesktopWrites(w), t)
    ensures Inv(t)
  {
    match w {
      case WriteTxn(txn) =>
        if txn.phase == D.Prepared {
          PrepareKeeps(s, txn, t);
        } else {
          AdvanceKeeps(s, txn, t);
        }
      case WritePendingVault(b) => WritePendingVaultKeeps(s, b, t);
      case WritePendingRecord(r) => WritePendingRecordKeeps(s, r, t);
      case CopyVaultToRollback => CopyVaultToRollbackKeeps(s, t);
      case CopyRecordToRollback => CopyRecordToRollbackKeeps(s, t);
      case PromoteVault => PromoteVaultKeeps(s, t);
      case PromoteRecord => PromoteRecordKeeps(s, t);
      case Remove(f) => RemoveKeeps(s, f, t);
    }
    DesktopOnlyKeeps(s, t);
  }

  lemma DesktopInitsKeeps(s: Sys, g: Gen, password: Password, salt: Salt, t: Sys)
    requires Inv(s) && DesktopStep(s, DesktopInits(g, password, salt), t)
    ensures Inv(t)
  {
  }

  lemma DesktopPairsKeeps(s: Sys, g: Gen, t: Sys)
    requires Inv(s) && DesktopStep(s, DesktopPairs(g), t)
    ensures Inv(t)
  {
  }

  lemma DesktopVerifiesKeeps(s: Sys, t: Sys)
    requires HistoryOk(s) && MintedOk(s) && DesktopOk(s) && DesktopStep(s, DesktopVerifies, t)
    ensures DesktopOk(t) && OnDesktop(s, t)
  {
  }

  lemma DesktopFailsKeeps(s: Sys, t: Sys)
    requires HistoryOk(s) && MintedOk(s) && DesktopOk(s) && DesktopStep(s, DesktopFails, t)
    ensures DesktopOk(t) && OnDesktop(s, t)
  {
  }

  lemma DesktopReturnsKeeps(s: Sys, t: Sys)
    requires HistoryOk(s) && MintedOk(s) && DesktopOk(s) && DesktopStep(s, DesktopReturns, t)
    ensures DesktopOk(t) && OnDesktop(s, t)
  {
  }

  lemma DesktopFinishesKeeps(s: Sys, t: Sys)
    requires HistoryOk(s) && MintedOk(s) && DesktopOk(s) && DesktopStep(s, DesktopFinishes, t)
    ensures DesktopOk(t) && OnDesktop(s, t)
  {
  }

  lemma DesktopStopsKeeps(s: Sys, t: Sys)
    requires HistoryOk(s) && MintedOk(s) && DesktopOk(s) && DesktopStep(s, DesktopStops, t)
    ensures DesktopOk(t) && OnDesktop(s, t)
  {
  }

  lemma DesktopUnlocksKeeps(s: Sys, password: Password, t: Sys)
    requires HistoryOk(s) && MintedOk(s) && DesktopOk(s) && DesktopStep(s, DesktopUnlocks(password), t)
    ensures DesktopOk(t) && OnDesktop(s, t)
  {
  }

  lemma DesktopGetsApprovalKeeps(s: Sys, t: Sys)
    requires DesktopOk(s) && DesktopStep(s, DesktopGetsApproval, t)
    ensures DesktopOk(t) && OnDesktop(s, t)
  {
  }

  lemma DesktopSavesKeeps(s: Sys, plaintext: Plaintext, reported: bool, t: Sys)
    requires HistoryOk(s) && MintedOk(s) && DesktopOk(s)
    requires DesktopStep(s, DesktopSaves(plaintext, reported), t) && Careful(s, DesktopSaves(plaintext, reported))
    ensures DesktopOk(t) && OnDesktop(s, t)
  {
  }

  lemma DesktopRotatesKeeps(s: Sys, password: Password, salt: Salt, reported: bool, t: Sys)
    requires HistoryOk(s) && MintedOk(s) && DesktopOk(s)
    requires DesktopStep(s, DesktopRotates(password, salt, reported), t) && Careful(s, DesktopRotates(password, salt, reported))
    ensures DesktopOk(t) && OnDesktop(s, t)
  {
  }

  lemma CommandEndsKeeps(s: Sys, t: Sys)
    requires HistoryOk(s) && MintedOk(s) && DesktopOk(s) && DesktopStep(s, CommandEnds, t)
    ensures DesktopOk(t) && OnDesktop(s, t)
  {
  }

  /** The steps of the process that only use what is on disk and in its own memory. */
  lemma ProcessStepKeeps(s: Sys, e: Event, t: Sys)
    requires HistoryOk(s) && MintedOk(s) && DesktopOk(s) && DesktopStep(s, e, t) && Careful(s, e)
    requires !e.DesktopWrites? && !e.DesktopSends? && !e.DesktopInits? && !e.DesktopPairs?
    ensures DesktopOk(t) && OnDesktop(s, t)
  {
    match e {
      case DesktopVerifies => DesktopVerifiesKeeps(s, t);
      case DesktopFails => DesktopFailsKeeps(s, t);
      case DesktopReturns => DesktopReturnsKeeps(s, t);
      case DesktopFinishes => DesktopFinishesKeeps(s, t);
      case DesktopStops => DesktopStopsKeeps(s, t);
      case DesktopUnlocks(password) => DesktopUnlocksKeeps(s, password, t);
      case DesktopGetsApproval => DesktopGetsApprovalKeeps(s, t);
      case DesktopSaves(plaintext, reported) => DesktopSavesKeeps(s, plaintext, reported, t);
      case DesktopRotates(password, salt, reported) => DesktopRotatesKeeps(s, password, salt, reported, t);
      case CommandEnds => CommandEndsKeeps(s, t);
    }
  }

  lemma DesktopStepKeepsInv(s: Sys, e: Event, t: Sys)
    requires Inv(s) && DesktopStep(s, e, t) && Careful(s, e)
    ensures Inv(t)
  {
    if e.DesktopWrites? {
      DesktopWriteKeepsInv(s, e.d, t);
    } else if e.DesktopSends? {
      SendKeeps(s, e.m, t);
    } else if e.DesktopInits? {
      DesktopInitsKeeps(s, e.g, e.password, e.salt, t);
    } else if e.DesktopPairs? {
      DesktopPairsKeeps(s, e.g, t);
    } else {
      ProcessStepKeeps(s, e, t);
      DesktopOnlyKeeps(s, t);
    }
  }
}
