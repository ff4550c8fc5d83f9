/** What every reachable state of the two devices satisfies. */
module PairingInvariant {
  import opened PairingTypes
  import opened PairingProtocol
  import P = PhoneStore
  import D = DesktopDisk

  /** The phone holds the bundle of g, and its share seals b. */
  ghost predicate Seals(s: Sys, b: Option<Blob>, g: Gen) {
    b.Some? && g in s.phone.bundles && b.value.key.share == s.phone.bundles[g].share
  }

  ghost predicate TxnFor(s: Sys, g: Gen) {
    s.disk.txn.Some? && s.disk.txn.value.gen == g
  }

  /** The desktop is working on g, in memory or on disk. */
  ghost predicate Engaged(s: Sys, g: Gen) {
    TxnFor(s, g) || (s.process.Pairing? && s.process.exchange.gen == g)
  }

  /** The phone published g for this desktop and nothing but the desktop's own requests can move it now. */
  ghost predicate Offered(s: Sys, g: Gen) {
    && g !in s.wasActive
    && s.phone.pending == Some(g)
    && g in s.phone.bundles && g in s.phone.keys
    && g in s.setups && s.setups[g] != Preparing && s.setups[g] != Aborting
  }

  ghost predicate OfferedHere(s: Sys, g: Gen) {
    Offered(s, g) && s.phone.bundles[g].cli == DESKTOP
  }

  ghost predicate HistoryOk(s: Sys) {
    && (s.phone.active.Some? ==> s.phone.active.value in s.wasActive && s.phone.active.value in s.phone.keys
                                 && s.phone.active.value in s.phone.bundles
                                 && s.phone.bundles[s.phone.active.value].cli == DESKTOP)
    && (s.phone.committed.Some? ==> s.phone.committed.value in s.wasCommitted)
    && (forall g :: g in s.wasCommitted ==> s.phone.committed == Some(g) || g in s.wasActive)
    && (forall g :: g in s.wasActive ==> g in s.minted)
    && (forall g :: g in s.wasActive && s.phone.active != Some(g) ==>
          s.phone.pending != Some(g) && s.phone.staging != Some(g) && s.phone.committed != Some(g))
    && (s.phone.retiring.Some? ==> s.phone.retiring.value in s.wasActive)
    && (s.memory.Some? ==> s.memory.value in s.wasActive)
  }

  ghost predicate MintedOk(s: Sys) {
    && (forall g :: g in s.phone.bundles ==> g in s.minted && s.minted[g] == s.phone.bundles[g])
    && (forall g :: g in s.minted ==> g in s.setups && s.minted[g].id == g)
    && (forall g, h :: g in s.minted && h in s.minted && s.minted[g].share == s.minted[h].share ==> g == h)
  }

  ghost predicate SetupsOk(s: Sys) {
    forall g :: g in s.setups && (s.setups[g] == Preparing || s.setups[g] == Signed || s.setups[g] == Aborting) ==>
      && g !in s.wasActive && g !in s.hellos && !Engaged(s, g)
      && (s.setups[g] == Signed ==> Offered(s, g))
  }

  ghost predicate MailOk(s: Sys) {
    && (forall g :: g in s.hellos ==> OfferedHere(s, g) && !Engaged(s, g))
    && (forall g :: Commit(g) in s.net ==> g in s.wasActive || TxnFor(s, g))
    && (forall g :: Activate(g) in s.net ==>
          g in s.wasActive
          || (TxnFor(s, g) && (s.disk.txn.value.phase == D.LocallyActivated || s.disk.txn.value.phase == D.FullyActivated)))
    && (forall g :: CommitAck(g) in s.net ==> g in s.wasCommitted || g in s.wasActive)
    && (forall g :: ActivateAck(g) in s.net ==> g in s.wasActive)
  }

  /** Vault, pairing record and the phone's active generation name the same generation. */
  ghost predicate LiveMatches(s: Sys) {
    if s.disk.record.None? then s.disk.vault.None? && s.phone.active.None?
    else
      && s.phone.active == Some(s.disk.record.value.gen)
      && Seals(s, s.disk.vault, s.disk.record.value.gen)
      && s.disk.record.value.phone == PHONE
  }

  ghost predicate NothingHalfDone(s: Sys) {
    s.phone.committed.None? || s.phone.committed == s.phone.active
  }

  /** The vault and pairing record of g have been promoted. */
  ghost predicate NewLive(s: Sys, g: Gen) {
    && Seals(s, s.disk.vault, g)
    && s.disk.record == Some(D.Record(g, PHONE))
    && s.disk.pendingVault.None? && s.disk.pendingRecord.None?
  }

  ghost predicate Agreement(s: Sys) {
    match s.disk.txn
    case None => LiveMatches(s) && NothingHalfDone(s)
    case Some(txn) =>
      var g := txn.gen;
      match txn.phase
      case Prepared =>
        && LiveMatches(s) && OfferedHere(s, g)
        && Seals(s, s.disk.pendingVault, g)
        && s.disk.pendingRecord == Some(D.Record(g, PHONE))
        && D.RollbackCaptured(s.disk, txn)
      case PhoneCommitted =>
        && OfferedHere(s, g) && s.phone.committed == Some(g)
        && D.RollbackCaptured(s.disk, txn)
        && (if s.disk.pendingVault.Some? then LiveMatches(s) && Seals(s, s.disk.pendingVault, g) else Seals(s, s.disk.vault, g))
        && (if s.disk.pendingRecord.Some? then s.disk.pendingRecord == Some(D.Record(g, PHONE))
            else s.disk.pendingVault.None? && s.disk.record == Some(D.Record(g, PHONE)))
      case LocallyActivated =>
        && NewLive(s, g)
        && (if s.phone.active == Some(g) then NothingHalfDone(s)
            else OfferedHere(s, g) && s.phone.committed == Some(g))
      case FullyActivated =>
        NewLive(s, g) && s.phone.active == Some(g) && NothingHalfDone(s)
  }

  /** The master password the user knows is the one that every blob in use was sealed with. */
  ghost predicate PasswordOk(s: Sys, b: Blob) {
    b.key.local == LocalSecret(s.password, b.salt)
  }

  ghost predicate PasswordsOk(s: Sys) {
    && (s.disk.vault.Some? ==> PasswordOk(s, s.disk.vault.value))
    && (s.disk.txn.Some? && s.disk.pendingVault.Some? ==> PasswordOk(s, s.disk.pendingVault.value))
  }

  ghost predicate Coherent(s: Sys, session: Session) {
    && session.key == VaultKey(session.local, session.share)
    && session.local == LocalSecret(s.password, session.salt)
    && session.gen in s.wasActive && session.gen in s.minted && session.share == s.minted[session.gen].share
  }

  /** The session belongs to the generation the desktop is paired with. */
  ghost predicate Current(s: Sys, session: Session) {
    s.disk.record.Some? && s.disk.record.value.gen == session.gen
  }

  /** A current session's key and salt are those of the live vault. */
  ghost predicate SessionOk(s: Sys, session: Session) {
    && Coherent(s, session)
    && s.disk.record.Some?
    && (Current(s, session) ==>
          s.disk.vault.Some? && s.disk.vault.value.salt == session.salt && s.disk.vault.value.key == session.key)
  }

  ghost predicate ExchangeOk(s: Sys, from: Option<Session>, x: Exchange) {
    && x.gen in s.minted && x.blob.key.share == s.minted[x.gen].share && PasswordOk(s, x.blob)
    && (from.Some? ==>
          && Coherent(s, from.value) && from.value.gen != x.gen
          && x.blob.salt == from.value.salt && x.blob.key.local == from.value.local
          && x.blob.plaintext == from.value.plaintext)
  }

  ghost predicate ProcessOk(s: Sys) {
    match s.process
    case Down => true
    case Idle(session, _) =>
      s.disk.txn.None? && SessionOk(s, session)
    case Pairing(from, x) =>
      && ExchangeOk(s, from, x)
      && match x.progress
         case Started =>
           if s.disk.txn.None? then s.disk.vault == Some(x.blob) && s.disk.record == Some(D.Record(x.gen, PHONE))
           else
             && TxnFor(s, x.gen)
             && (if s.disk.pendingVault.Some? then s.disk.pendingVault == Some(x.blob) else s.disk.vault == Some(x.blob))
         case _ =>
           && s.disk.txn.None?
           && (from.Some? ==> SessionOk(s, from.value))
           && (from.None? && x.progress != Failing ==> s.disk.vault.None?)
           && (x.progress != Failing ==> OfferedHere(s, x.gen))
           && (x.progress == Verified ==>
                 s.disk.pendingVault == Some(x.blob) && s.disk.pendingRecord == Some(D.Record(x.gen, PHONE)))
  }

  ghost predicate Inv(s: Sys) {
    && P.Inv(s.phone) && HistoryOk(s) && MintedOk(s) && SetupsOk(s) && MailOk(s)
    && Agreement(s) && PasswordsOk(s) && ProcessOk(s)
  }

  /** The only writes to a live vault outside a transaction come from a session that is current. */
  ghost predicate Careful(s: Sys, e: Event) {
    e.DesktopSaves? || e.DesktopRotates? ==> s.process.Idle? && Current(s, s.process.session)
  }

  lemma StartOk()
    ensures Inv(START)
  {
  }
}
