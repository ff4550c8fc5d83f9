/** The desktop process: unlocking, saving, rotating the password and replacing the phone, against its files. */
module DesktopSessions {
  import opened PairingTypes
  import opened DesktopFileStore
  import opened GenerationStores
  import opened Reconcile
  import PP = PairingProtocol
  import PI = PairingInvariant
  import PT = PairingTheorems
  import PR = PairingRuns
  import P = PhoneStore
  import D = DesktopDisk

  /** The session's key and salt are those of the vault file. */
  predicate Opens(session: PP.Session, vault: Option<Blob>) {
    && session.key == VaultKey(session.local, session.share)
    && vault.Some? && vault.value.salt == session.salt && vault.value.key == session.key
  }

  /** After recovery, the password and the phone's share for the paired generation will open the vault. */
  predicate Unlockable(d: D.Disk, p: P.Store, password: Password) {
    var (vault, record) := Destined(d);
    && vault.Some? && record.Some? && record.value.phone == PP.PHONE
    && record.value.gen in p.bundles
    && Unseal(vault.value, password, p.bundles[record.value.gen].share).Some?
  }

  lemma InvUnlockable(s: PP.Sys)
    requires PI.Inv(s) && (s.disk.vault.Some? || s.disk.txn.Some?)
    ensures Unlockable(s.disk, s.phone, s.password)
  {
    if s.disk.txn.Some? {
      var g := s.disk.txn.value.gen;
      assert Destined(s.disk).1 == Some(D.Record(g, PP.PHONE));
      assert PI.Seals(s, Destined(s.disk).0, g);
      assert PI.PasswordOk(s, Destined(s.disk).0.value);
    } else {
      assert PI.PasswordOk(s, s.disk.vault.value);
    }
  }

  /** In every reachable state, crash states included, a vault or a transaction can be unlocked with the master password. */
  lemma {:induction false} ReachableIsUnlockable(states: seq<PP.Sys>, events: seq<PP.Event>, i: nat)
    requires PT.CarefulRun(states, events, i) && (states[i].disk.vault.Some? || states[i].disk.txn.Some?)
    ensures Unlockable(states[i].disk, states[i].phone, states[i].password)
  {
    PT.RunKeepsInv(states, events, i);
    InvUnlockable(states[i]);
  }

  /** Whenever the desktop has verified readiness, the phone can commit, and its share opens the pending vault. */
  lemma {:induction false} VerifiedIsAnswerable(states: seq<PP.Sys>, events: seq<PP.Event>, i: nat)
    requires PT.CarefulRun(states, events, i) && i < |events| && events[i].DesktopVerifies?
    ensures var s := states[i];
            && s.process.Pairing? && s.disk.pendingVault == Some(s.process.exchange.blob)
            && var g := s.process.exchange.gen;
               && s.disk.pendingRecord == Some(D.Record(g, PP.PHONE))
               && Answerable(s.phone, P.Commit(g)) && g in s.phone.keys
               && Unseal(s.process.exchange.blob, s.password, s.phone.bundles[g].share) == Some(s.process.exchange.blob.plaintext)
  {
    PT.RunKeepsInv(states, events, i);
    var s := states[i];
    assert PP.Step(s, events[i], states[i + 1]);
    assert PI.OfferedHere(s, s.process.exchange.gen) && PI.PasswordOk(s, s.process.exchange.blob);
  }

  // ----- the transaction, driven to its end over one connection

  /** Sends one transition on the pairing stream and waits for its acknowledgement. */
  method SendPairingTransition(files: DesktopFiles, phone: GenerationStore, online: bool, ghost q: PP.Process) returns (r: Status)
    requires phone.Valid() && Resumable(files.View(), phone.View()) && PR.Waits(files.View())
    modifies phone
    ensures phone.Valid() && Resumable(files.View(), phone.View())
    ensures r.Ok? ==> Done(files.View(), phone.View())
    ensures online && !phone.faulty ==> r.Ok?
    ensures PR.Linked(q, files.View(), old(phone.View())) ==>
              && PR.Linked(q, files.View(), phone.View())
              && (r.Ok? ==> PR.LinkedSent(q, files.View(), phone.View(), PR.AckOf(files.txn.value)))
  {
    var requestLost, answerLost := *, *;
    if !online && requestLost {
      return Err(Unreachable);
    }
    var txn := files.txn.value;
    var done: bool;
    if txn.phase == D.Prepared {
      var committed := phone.CommitPendingGeneration(txn.gen);
      done := committed.Ok?;
    } else {
      var activated := phone.ActivateGeneration(txn.gen);
      done := activated.Ok?;
    }
    AnswerKeeps(q, files.View(), phone.origin, old(phone.log), phone.log);
    if PR.Linked(q, files.View(), old(phone.View())) {
      ExchangeLinked(q, files.View(), phone.View(), done);
    }
    r := if done && (online || !answerLost) then DONE else Err(Unreachable);
  }

  /** One transition and its phase mark, then what the desktop does on its own. */
  method Proceed(files: DesktopFiles, phone: GenerationStore, online: bool, ghost q: PP.Process) returns (r: Status)
    requires files.Valid() && phone.Valid() && Resumable(files.View(), phone.View()) && PR.Waits(files.View())
    modifies files, phone
    ensures files.Valid() && phone.Valid() && Resumable(files.View(), phone.View())
    ensures Destined(files.View()) == old(Destined(files.View()))
    ensures files.txn.Some? ==> files.txn.value.gen == old(files.txn).value.gen
    ensures r.Ok? && old(files.txn).value.phase == D.Prepared ==> D.InPhase(files.View(), D.LocallyActivated)
    ensures r.Ok? && old(files.txn).value.phase == D.LocallyActivated ==>
              D.Recovered(files.View()) && phone.active == Some(old(files.txn).value.gen)
    ensures online && !files.faulty && !phone.faulty ==> r.Ok?
    ensures old(files.Lawful()) ==> files.Lawful()
    ensures old(files.Lawful()) && PR.Drives(q) && PR.Linked(q, old(files.View()), old(phone.View())) ==>
              PR.Linked(q, files.View(), phone.View())
  {
    r := SendPairingTransition(files, phone, online, q);
    if r.Ok? {
      r := MarkPhase(files, phone.View(), q);
    }
    if r.Ok? {
      r := Recover(files, phone.View(), q);
    }
  }

  lemma PreparedIsResumable(d: D.Disk, p: P.Store, g: Gen)
    requires d.txn.None? && d.pendingVault.Some? && d.pendingRecord == Some(D.Record(g, PP.PHONE))
    requires Answerable(p, P.Commit(g))
    ensures Resumable(D.PreparedFor(d, g), p) && Destined(D.PreparedFor(d, g)) == (d.pendingVault, d.pendingRecord)
  {
  }

  /** The desktop process has verified that the phone is ready for g. */
  predicate Verified(q: PP.Process, g: Gen) {
    q.Pairing? && q.exchange.progress == PP.Verified && q.exchange.gen == g
  }

  method Prepare(files: DesktopFiles, ghost p: P.Store, g: Gen, ghost q: PP.Process) returns (r: Status)
    requires files.Valid() && files.txn.None? && Resumable(files.View(), p)
    requires files.pendingVault.Some? && files.pendingRecord == Some(D.Record(g, PP.PHONE))
    requires Answerable(p, P.Commit(g))
    modifies files
    ensures files.Valid() && Resumable(files.View(), p)
    ensures files.txn.None? ==> (files.vault, files.record) == old((files.vault, files.record))
    ensures files.txn.Some? ==> files.View() == D.PreparedFor(old(files.View()), g)
                                && Destined(files.View()) == old((files.pendingVault, files.pendingRecord))
    ensures r.Ok? ==> files.txn.Some?
    ensures !files.faulty ==> r.Ok?
    ensures old(files.Lawful()) ==> files.Lawful()
    ensures old(files.Lawful()) && Verified(q, g) && PR.Linked(q, old(files.View()), p) ==>
              PR.Linked(PR.Underway(q, files.View()), files.View(), p)
  {
    PreparedIsResumable(files.View(), p, g);
    r := files.WriteTransactionPrepared(g);
    if old(files.Lawful()) && Verified(q, g) && PR.Linked(q, old(files.View()), p) {
      PR.PreparationLinked(q, files.origin, old(files.log), files.log, p);
    }
  }

  /** Wherever it stops, the files and the store are as some run of the two devices has them. */
  method CommitAndActivate(files: DesktopFiles, phone: GenerationStore, g: Gen, online: bool, ghost q: PP.Process) returns (r: Status)
    requires files.Valid() && phone.Valid() && Resumable(files.View(), phone.View()) && files.txn.None?
    requires files.pendingVault.Some? && files.pendingRecord == Some(D.Record(g, PP.PHONE))
    requires Answerable(phone.View(), P.Commit(g))
    modifies files, phone
    ensures files.Valid() && phone.Valid() && Resumable(files.View(), phone.View())
    ensures files.txn.Some? ==> files.txn.value.gen == g && Destined(files.View()) == old((files.pendingVault, files.pendingRecord))
    ensures files.txn.None? ==>
              (files.vault, files.record) in {old((files.vault, files.record)), old((files.pendingVault, files.pendingRecord))}
    ensures r.Ok? ==> D.Recovered(files.View()) && phone.active == Some(g)
    ensures r.Ok? ==> (files.vault, files.record) == old((files.pendingVault, files.pendingRecord))
    ensures online && !files.faulty && !phone.faulty ==> r.Ok?
    ensures old(files.Lawful()) ==> files.Lawful()
    ensures old(files.Lawful()) && Verified(q, g) && PR.Linked(q, old(files.View()), old(phone.View())) ==>
              && PR.LinkedPairing(q, files.View(), phone.View())
              && (r.Ok? ==> PR.Linked(PP.WithProgress(q, PP.Started), files.View(), phone.View()))
  {
    ghost var started := if q.Pairing? then PP.WithProgress(q, PP.Started) else q;
    r := Prepare(files, phone.View(), g, q);
    if r.Err? {
      return;
    }
    r := Proceed(files, phone, online, started);
    if r.Err? {
      return;
    }
    r := Proceed(files, phone, online, started);
  }

  /** The phone signs that it is ready only for a generation it has published. */
  method ConfirmReady(phone: GenerationStore, g: Gen, online: bool) returns (r: Status)
    ensures r.Ok? ==> Answerable(phone.View(), P.Commit(g))
    ensures online && Answerable(phone.View(), P.Commit(g)) ==> r.Ok?
  {
    var lost := *;
    r := if Answerable(phone.View(), P.Commit(g)) && (online || !lost) then DONE else Err(Unreachable);
  }

  /** The desktop process has the hello of g, and the vault resealed under its share. */
  predicate Collecting(q: PP.Process, g: Gen, blob: Blob) {
    q.Pairing? && q.exchange == PP.Exchange(g, blob, PP.Collecting)
  }

  method WritePending(files: DesktopFiles, ghost p: P.Store, g: Gen, blob: Blob, ghost q: PP.Process) returns (r: Status)
    requires files.Valid() && files.txn.None? && Resumable(files.View(), p)
    modifies files
    ensures files.Valid() && Resumable(files.View(), p)
    ensures files.View() == old(files.View()).(pendingVault := files.pendingVault, pendingRecord := files.pendingRecord)
    ensures r.Ok? ==> files.pendingVault == Some(blob) && files.pendingRecord == Some(D.Record(g, PP.PHONE))
    ensures !files.faulty ==> r.Ok?
    ensures old(files.Lawful()) ==> files.Lawful()
    ensures Collecting(q, g, blob) && PR.LinkedWaiting(q, old(files.View()), p) ==> PR.LinkedWaiting(q, files.View(), p)
  {
    if Collecting(q, g, blob) && PR.LinkedWaiting(q, files.View(), p) {
      var vaultWritten := D.Apply(files.View(), D.WritePendingVault(blob));
      PR.PendingLinked(q, files.View(), p, D.WritePendingVault(blob));
      PR.PendingLinked(q, vaultWritten, p, D.WritePendingRecord(D.Record(g, PP.PHONE)));
    }
    var _ :- files.Change(D.WritePendingVault(blob));
    r := files.Change(D.WritePendingRecord(D.Record(g, PP.PHONE)));
  }

  /** Writes the pending files and, once the phone has signed that it is ready, runs the transaction. */
  method Persist(files: DesktopFiles, phone: GenerationStore, g: Gen, blob: Blob, online: bool, ghost q: PP.Process) returns (r: Status)
    requires files.Valid() && phone.Valid() && Resumable(files.View(), phone.View()) && files.txn.None?
    modifies files, phone
    ensures files.Valid() && phone.Valid() && Resumable(files.View(), phone.View())
    ensures files.txn.Some? ==> files.txn.value.gen == g && Destined(files.View()) == (Some(blob), Some(D.Record(g, PP.PHONE)))
    ensures files.txn.None? ==>
              (files.vault, files.record) in {old((files.vault, files.record)), (Some(blob), Some(D.Record(g, PP.PHONE)))}
    ensures r.Ok? ==> D.Recovered(files.View()) && phone.active == Some(g)
    ensures r.Ok? ==> (files.vault, files.record) == (Some(blob), Some(D.Record(g, PP.PHONE)))
    ensures Answerable(old(phone.View()), P.Commit(g)) && online && !files.faulty && !phone.faulty ==> r.Ok?
    ensures old(files.Lawful()) ==> files.Lawful()
    ensures old(files.Lawful()) && Collecting(q, g, blob) && PR.LinkedWaiting(q, old(files.View()), old(phone.View())) ==>
              && PR.LinkedPairing(q, files.View(), phone.View())
              && (r.Ok? ==> PR.Linked(PP.WithProgress(q, PP.Started), files.View(), phone.View()))
  {
    ghost var linked := files.Lawful() && Collecting(q, g, blob) && PR.LinkedWaiting(q, files.View(), phone.View());
    r := WritePending(files, phone.View(), g, blob, q);
    if r.Ok? {
      r := ConfirmReady(phone, g, online);
    }
    if r.Err? {
      if linked {
        PR.WaitingIsLinked(q, files.View(), phone.View());
        assert q == PP.WithProgress(q, PP.Collecting);
      }
      return;
    }
    ghost var verified := if q.Pairing? then PP.WithProgress(q, PP.Verified) else q;
    if linked {
      PR.ReadyLinked(q, files.View(), phone.View());
    }
    r := CommitAndActivate(files, phone, g, online, verified);
  }

  /** Clears what a pairing that failed before its transaction has left, and returns to the session. */
  method Abort(files: DesktopFiles, ghost p: P.Store, ghost q: PP.Process) returns (r: Status)
    requires files.Valid() && files.txn.None? && Resumable(files.View(), p)
    modifies files
    ensures files.Valid() && Resumable(files.View(), p)
    ensures files.txn.None? && files.vault == old(files.vault) && files.record == old(files.record)
    ensures r.Ok? ==> D.Recovered(files.View())
    ensures r.Err? ==> files.faulty && r.error == StorageFailure
    ensures old(files.Lawful()) ==> files.Lawful()
    ensures old(files.Lawful()) && PR.LinkedPairing(q, old(files.View()), p) && q.from.Some? ==>
              PR.Linked(PP.Idle(q.from.value, false), files.View(), p)
  {
    ghost var linked := files.Lawful() && PR.LinkedPairing(q, files.View(), p) && q.from.Some?;
    if linked {
      PR.PairingStops(q, files.View(), p);
    }
    r := files.ClearPendingPairing();
    if linked {
      PR.OwnWritesLinked(PP.WithProgress(q, PP.Failing), files.origin, old(files.log), files.log, p);
      PR.ReturnLinked(PP.WithProgress(q, PP.Failing), files.View(), p);
    }
  }

  /** Where the process is when a command has ended: at its session, or gone. */
  function Resting(session: Option<PP.Session>): PP.Process {
    if session.Some? then PP.Idle(session.value, false) else PP.Down
  }

  /** What a replacement leaves of the session: the new one, none while a transaction is outstanding, otherwise the old one. */
  function Renewed(s: PP.Session, g: Gen, share: Share, done: bool, outstanding: bool): Option<PP.Session> {
    if done then Some(s.(gen := g, share := share, key := VaultKey(s.local, share)))
    else if outstanding then None
    else Some(s)
  }

  /** After a failure: a transaction that has begun is left for recovery, anything before one is cleared. */
  method GiveUp(files: DesktopFiles, failure: Status, ghost p: P.Store, ghost q: PP.Process) returns (r: Status)
    requires files.Valid() && Resumable(files.View(), p) && failure.Err?
    modifies files
    ensures files.Valid() && Resumable(files.View(), p) && r.Err?
    ensures files.txn == old(files.txn) && Destined(files.View()) == old(Destined(files.View()))
    ensures old(files.txn).Some? ==> files.View() == old(files.View()) && r == failure
    ensures old(files.txn).None? ==> D.Recovered(files.View()) || (files.faulty && r.error == StorageFailure)
    ensures r == failure || (files.faulty && r.error == StorageFailure)
    ensures old(files.Lawful()) ==> files.Lawful()
    ensures old(files.Lawful()) && PR.LinkedPairing(q, old(files.View()), p) && q.from.Some? ==>
              PR.Linked(if files.txn.Some? then PP.Down else PP.Idle(q.from.value, false), files.View(), p)
  {
    if files.txn.Some? {
      if PR.LinkedPairing(q, files.View(), p) {
        PR.PairingStops(q, files.View(), p);
      }
      return failure;
    }
    var cleared := Abort(files, p, q);
    r := if cleared.Err? then cleared else failure;
  }

  /** The files' part of a replacement: the new vault is persisted, or what a failure left before the transaction cleared. */
  method ReplaceShare(files: DesktopFiles, phone: GenerationStore, s: PP.Session, g: Gen, share: Share, online: bool)
    returns (r: Status)
    requires files.Valid() && phone.Valid() && Resumable(files.View(), phone.View()) && files.txn.None?
    requires files.record.Some?
    modifies files, phone
    ensures files.Valid() && phone.Valid() && Resumable(files.View(), phone.View())
    ensures var sealed := PP.Seal(s.local, share, s.salt, s.plaintext);
            && (Destined(files.View()) == old((files.vault, files.record))
                || Destined(files.View()) == (Some(sealed), Some(D.Record(g, PP.PHONE))))
            && (r.Ok? ==> files.vault == Some(sealed) && files.record == Some(D.Record(g, PP.PHONE))
                          && D.Recovered(files.View()) && phone.active == Some(g))
    ensures r.Err? && files.txn.None? && !files.faulty ==> D.Recovered(files.View())
    ensures Answerable(old(phone.View()), P.Commit(g)) && online && !files.faulty && !phone.faulty ==> r.Ok?
    ensures old(files.Lawful()) ==> files.Lawful()
    ensures old(files.Lawful()) && old(files.pendingRecord).None? && PR.LinkedOffer(s, g, share, old(files.View()), old(phone.View()))
            ==> PR.Linked(Resting(Renewed(s, g, share, r.Ok?, files.txn.Some?)), files.View(), phone.View())
  {
    var sealed := PP.Seal(s.local, share, s.salt, s.plaintext);
    ghost var q := PR.Collects(s, g, share);
    ghost var linked := files.Lawful() && files.pendingRecord.None? && PR.LinkedOffer(s, g, share, files.View(), phone.View());
    if linked {
      PR.OfferLinked(s, g, share, files.View(), phone.View());
    }
    r := Persist(files, phone, g, sealed, online, q);
    if r.Err? {
      r := GiveUp(files, r, phone.View(), q);
    } else if linked {
      PR.FinishLinked(PP.WithProgress(q, PP.Started), files.View(), phone.View());
    }
  }

  class Desktop {
    const files: DesktopFiles
    var session: Option<PP.Session>

    constructor (files: DesktopFiles)
      ensures this.files == files && session.None?
    {
      this.files := files;
      session := None;
    }

    /** The phone releases the share of its active generation to a request that its user approves. */
    method RequestUnlockShare(phone: GenerationStore, record: D.Record, approves: bool, online: bool) returns (r: Result<Share>)
      requires phone.Valid()
      ensures r.Ok? ==> approves && phone.active == Some(record.gen) && record.gen in phone.bundles && r.value == phone.bundles[record.gen].share
      ensures approves && online && record.phone == PP.PHONE && phone.active == Some(record.gen) ==> r.Ok?
    {
      var lost := *;
      if !approves || record.phone != PP.PHONE || phone.active != Some(record.gen) || (!online && lost) {
        return Err(Unreachable);
      }
      r := Ok(phone.bundles[record.gen].share);
    }

    /** Recovers first. With working storage and phone, the master password always gets to the contents. */
    method EnsureUnlocked(password: Password, approves: bool, phone: GenerationStore, online: bool) returns (r: Status)
      requires files.Valid() && phone.Valid() && Resumable(files.View(), phone.View())
      modifies this, files, phone
      ensures files.Valid() && phone.Valid() && Resumable(files.View(), phone.View())
      ensures old(session).Some? ==> r.Ok? && session == old(session) && files.View() == old(files.View()) && phone.View() == old(phone.View())
      ensures old(session).None? && r.Ok? ==>
                && session.Some? && Opens(session.value, files.vault) && session.value.plaintext == files.vault.value.plaintext
                && D.Recovered(files.View()) && files.record.Some? && files.record.value.gen == session.value.gen
                && (files.vault, files.record) == old(Destined(files.View()))
      ensures old(session).None? && r.Ok? ==>
                && approves && phone.active == Some(session.value.gen) && session.value.gen in phone.bundles
                && session.value.share == phone.bundles[session.value.gen].share
                && session.value.local == LocalSecret(password, files.vault.value.salt)
      ensures old(session).None? && r.Err? ==> session.None?
      ensures approves && online && !files.faulty && !phone.faulty && Unlockable(old(files.View()), old(phone.View()), password) ==> r.Ok?
      ensures old(files.Lawful()) ==> files.Lawful()
    {
      if session.Some? {
        return DONE;
      }
      var recovered, _ := ReconcileTransaction(files, phone, online);
      if recovered.Err? {
        return recovered;
      }
      var status := files.Status(D.Readable, false);
      if files.vault.None? || status != D.Ready {
        return Err(Refused);
      }
      var blob, record := files.vault.value, files.record.value;
      var local := LocalSecret(password, blob.salt);
      var share :- RequestUnlockShare(phone, record, approves, online);
      var key := VaultKey(local, share);
      var contents := Open(blob, key);
      if contents.None? {
        return Err(Refused);
      }
      session := Some(PP.Session(record.gen, local, share, key, blob.salt, contents.value));
      r := DONE;
    }

    /** Writes the candidate, and only then makes it the session's vault. */
    method SaveVaultCandidate(plaintext: Plaintext) returns (r: Status)
      requires files.Valid()
      modifies this, files
      ensures files.Valid()
      ensures old(session).None? ==> r == Err(Refused) && session.None? && files.View() == old(files.View())
      ensures old(session).Some? ==>
                && session == (if r.Ok? then Some(old(session).value.(plaintext := plaintext)) else old(session))
                && files.View() == old(files.View()).(vault := files.vault)
                && (files.vault == Some(Blob(old(session).value.salt, old(session).value.key, plaintext))
                    || (r.Err? && files.vault == old(files.vault)))
                && (Opens(old(session).value, old(files.vault)) ==> Opens(session.value, files.vault))
      ensures old(session).Some? && !files.faulty ==> r.Ok?
      ensures old(files.Lawful()) && old(files.txn).None? ==> files.Lawful()
    {
      if session.None? {
        return Err(Refused);
      }
      var _ :- files.Change(D.WriteVault(Blob(session.value.salt, session.value.key, plaintext)));
      session := Some(session.value.(plaintext := plaintext));
      r := DONE;
    }

    /** A reported failure may have replaced the file all the same, so the session does not survive it. */
    method RotateVault(password: Password, salt: Salt) returns (r: Status)
      requires files.Valid()
      modifies this, files
      ensures files.Valid()
      ensures old(session).None? ==> r == Err(Refused) && session.None? && files.View() == old(files.View())
      ensures old(session).Some? ==>
                var local := LocalSecret(password, salt);
                var rotated := Blob(salt, VaultKey(local, old(session).value.share), old(session).value.plaintext);
                && files.View() == old(files.View()).(vault := files.vault)
                && (files.vault == Some(rotated) || (r.Err? && files.vault == old(files.vault)))
                && (r.Err? ==> session.None?)
                && (r.Ok? ==> session == Some(old(session).value.(local := local, key := rotated.key, salt := salt)))
                && Unseal(rotated, password, old(session).value.share) == Some(old(session).value.plaintext)
      ensures session.Some? ==> Opens(session.value, files.vault)
      ensures old(session).Some? && !files.faulty ==> r.Ok?
      ensures old(files.Lawful()) && old(files.txn).None? ==> files.Lawful()
    {
      if session.None? {
        return Err(Refused);
      }
      var local := LocalSecret(password, salt);
      var key := VaultKey(local, session.value.share);
      var written := files.Change(D.WriteVault(Blob(salt, key, session.value.plaintext)));
      if written.Err? {
        session := None;
        return written;
      }
      session := Some(session.value.(local := local, key := key, salt := salt));
      r := DONE;
    }

    /**
     Replaces the phone-held share. The session that remains opens the vault, except in one window: the final
     clean-up fails after the transaction file is gone, and the session kept is the one from before.
     */
    method ReplacePairing(g: Gen, share: Share, phone: GenerationStore, online: bool) returns (r: Status)
      requires session.Some? && Opens(session.value, files.vault)
      requires files.record.Some? && files.record.value.gen == session.value.gen
      requires g != session.value.gen && share != session.value.share
      requires files.Valid() && phone.Valid() && Resumable(files.View(), phone.View()) && files.txn.None?
      modifies this, files, phone
      ensures files.Valid() && phone.Valid() && Resumable(files.View(), phone.View())
      ensures session.None? <==> r.Err? && files.txn.Some?
      ensures r.Err? && session.Some? ==> session == old(session)
      ensures session.Some? ==> (Opens(session.value, files.vault) <==> r.Ok? || files.record == old(files.record))
      ensures var s := old(session).value;
              var sealed := PP.Seal(s.local, share, s.salt, s.plaintext);
              && (Destined(files.View()) == old((files.vault, files.record))
                  || Destined(files.View()) == (Some(sealed), Some(D.Record(g, PP.PHONE))))
              && (r.Ok? ==> session == Some(s.(gen := g, share := share, key := sealed.key))
                            && files.vault == Some(sealed) && D.Recovered(files.View()) && phone.active == Some(g))
      ensures r.Err? && files.txn.None? && !files.faulty ==> D.Recovered(files.View())
      ensures Answerable(old(phone.View()), P.Commit(g)) && online && !files.faulty && !phone.faulty ==> r.Ok?
      ensures old(files.Lawful()) ==> files.Lawful()
      ensures old(files.Lawful()) && old(files.pendingRecord).None?
              && PR.LinkedOffer(old(session).value, g, share, old(files.View()), old(phone.View()))
              ==> PR.Linked(Resting(session), files.View(), phone.View())
    {
      var s := session.value;
      r := ReplaceShare(files, phone, s, g, share, online);
      session := Renewed(s, g, share, r.Ok?, files.txn.Some?);
    }

    /** Sets up the first vault; refused where one exists already. */
    method Initialise(password: Password, salt: Salt, g: Gen, share: Share, phone: GenerationStore, online: bool)
      returns (r: Status)
      requires files.Valid() && phone.Valid() && Resumable(files.View(), phone.View())
      modifies files, phone
      ensures files.Valid() && phone.Valid() && Resumable(files.View(), phone.View())
      ensures old(Destined(files.View())).0.Some? ==> r.Err? && Destined(files.View()) == old(Destined(files.View()))
      ensures r.Ok? ==>
                && files.vault == Some(PP.Seal(LocalSecret(password, salt), share, salt, []))
                && files.record == Some(D.Record(g, PP.PHONE)) && phone.active == Some(g) && D.Recovered(files.View())
      ensures r.Err? && files.txn.None? && !files.faulty ==> D.Recovered(files.View())
      ensures old(files.vault).None? && old(files.txn).None? && online && !files.faulty && !phone.faulty ==>
                (Answerable(old(phone.View()), P.Commit(g)) ==> r.Ok?)
      ensures old(files.Lawful()) ==> files.Lawful()
    {
      var recovered, _ := ReconcileTransaction(files, phone, online);
      if recovered.Err? {
        return recovered;
      }
      if files.vault.Some? {
        return Err(Refused);
      }
      r := Persist(files, phone, g, PP.Seal(LocalSecret(password, salt), share, salt, []), online, PP.Down);
      if r.Err? && files.txn.None? {
        var _ :- files.ClearPendingPairing();
      }
    }
  }
}
