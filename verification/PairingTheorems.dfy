/** What the replacement protocol guarantees in every state that any run can reach. */
module PairingTheorems {
  import opened PairingTypes
  import opened PairingProtocol
  import opened PairingInvariant
  import PairingSteps
  import PhoneHistory
  import P = PhoneStore
  import D = DesktopDisk

  lemma StepKeepsInv(s: Sys, e: Event, t: Sys)
    requires Inv(s) && Step(s, e, t) && Careful(s, e)
    ensures Inv(t)
  {
    if PhoneStep(s, e, t) {
      PairingSteps.PhoneStepKeepsInv(s, e, t);
    } else {
      PairingSteps.DesktopStepKeepsInv(s, e, t);
    }
  }

  /** A run of which the first i events are careful: sessions that write belong to the paired generation. */
  ghost predicate CarefulRun(states: seq<Sys>, events: seq<Event>, i: nat) {
    && Run(states, events) && i <= |events|
    && forall j {:trigger events[j]} :: 0 <= j < i ==> Careful(states[j], events[j])
  }

  /** Crashes at any write, restarts, lost and repeated messages included. */
  lemma {:induction false} RunKeepsInv(states: seq<Sys>, events: seq<Event>, i: nat)
    requires CarefulRun(states, events, i)
    ensures Inv(states[i])
  {
    if i == 0 {
      StartOk();
    } else {
      RunKeepsInv(states, events, i - 1);
      StepKeepsInv(states[i - 1], events[i - 1], states[i]);
    }
  }

  // ----- the vault stays decryptable

  /** The phone holds, under a pointer it can still serve, a share that opens the live vault with the master password. */
  ghost predicate Decryptable(s: Sys) {
    s.disk.vault.Some? ==>
      exists g ::
        && (s.phone.active == Some(g) || s.phone.committed == Some(g))
        && g in s.phone.bundles && g in s.phone.keys && s.phone.bundles[g].cli == DESKTOP
        && Unseal(s.disk.vault.value, s.password, s.phone.bundles[g].share) == Some(s.disk.vault.value.plaintext)
  }

  lemma InvDecryptable(s: Sys)
    requires Inv(s)
    ensures Decryptable(s)
  {
    if s.disk.vault.Some? {
      var g := if s.disk.txn.Some? && Seals(s, s.disk.vault, s.disk.txn.value.gen) then s.disk.txn.value.gen else s.phone.active.value;
      assert s.phone.active == Some(g) || s.phone.committed == Some(g);
      assert Unseal(s.disk.vault.value, s.password, s.phone.bundles[g].share) == Some(s.disk.vault.value.plaintext);
    }
  }

  /** The vault never becomes undecryptable: in every state of every run the phone still holds the share it needs. */
  lemma {:induction false} VaultStaysDecryptable(states: seq<Sys>, events: seq<Event>, i: nat)
    requires CarefulRun(states, events, i)
    ensures Decryptable(states[i])
  {
    RunKeepsInv(states, events, i);
    InvDecryptable(states[i]);
  }

  /** The share of the live vault, and of a transaction's pending one, belongs to a generation whose bundle the phone holds. */
  lemma NeededShareIsHeld(s: Sys)
    requires Agreement(s)
    ensures s.disk.vault.Some? ==> exists g :: Seals(s, s.disk.vault, g)
    ensures s.disk.txn.Some? && s.disk.pendingVault.Some? ==> exists g :: Seals(s, s.disk.pendingVault, g)
  {
    if s.disk.txn.Some? {
      var g := s.disk.txn.value.gen;
      assert s.disk.pendingVault.None? || Seals(s, s.disk.pendingVault, g)
             || D.InPhase(s.disk, D.LocallyActivated) || D.InPhase(s.disk, D.FullyActivated);
    }
    if s.disk.vault.Some? && s.disk.record.Some? {
      var h := s.disk.record.value.gen;
      assert Seals(s, s.disk.vault, h) || (s.disk.txn.Some? && Seals(s, s.disk.vault, s.disk.txn.value.gen));
    }
  }

  /** A generation's bundle is destroyed only when neither the live nor a pending vault of a transaction needs it. */
  lemma {:induction false} DestroyedSharesAreNotNeeded(states: seq<Sys>, events: seq<Event>, i: nat, op: P.Op, g: Gen)
    requires CarefulRun(states, events, i) && i < |events|
    requires events[i] == PhoneWrites(op, P.DropBundle(g)) && g in states[i].phone.bundles
    ensures var s := states[i];
            && (s.disk.vault.Some? ==> s.disk.vault.value.key.share != s.phone.bundles[g].share)
            && (s.disk.txn.Some? && s.disk.pendingVault.Some? ==> s.disk.pendingVault.value.key.share != s.phone.bundles[g].share)
  {
    RunKeepsInv(states, events, i);
    var s, t := states[i], states[i + 1];
    assert Step(s, events[i], t);
    PairingSteps.PhoneStepKeepsInv(s, events[i], t);
    NeededShareIsHeld(t);
    assert forall h :: h in t.phone.bundles ==> h != g && t.phone.bundles[h].share != s.phone.bundles[g].share;
  }

  // ----- both sides agree

  /** Without a transaction file the vault, pairing.json and the phone's active pointer name one generation. */
  lemma {:induction false} BothSidesAgree(states: seq<Sys>, events: seq<Event>, i: nat)
    requires CarefulRun(states, events, i) && states[i].disk.txn.None?
    ensures var s := states[i];
            && (s.disk.vault.Some? <==> s.disk.record.Some?)
            && (s.disk.record.None? ==> s.phone.active.None?)
            && (s.disk.record.Some? ==>
                  var g := s.disk.record.value.gen;
                  s.phone.active == Some(g) && g in s.phone.bundles && s.disk.vault.value.key.share == s.phone.bundles[g].share)
  {
    RunKeepsInv(states, events, i);
  }

  /** The record that recovery dials has the transaction's id, and the phone authorizes this desktop for it. */
  lemma {:induction false} RecoveryFindsItsGeneration(states: seq<Sys>, events: seq<Event>, i: nat)
    requires CarefulRun(states, events, i)
    requires D.InPhase(states[i].disk, D.Prepared) || D.InPhase(states[i].disk, D.LocallyActivated)
    ensures var s := states[i];
            var g := s.disk.txn.value.gen;
            && D.PendingElse(s.disk.pendingRecord, s.disk.record) == Some(D.Record(g, PHONE))
            && (s.phone.active == Some(g) || s.phone.pending == Some(g) || s.phone.committed == Some(g))
            && P.Loadable(s.phone, g) && s.phone.bundles[g].cli == DESKTOP
  {
    RunKeepsInv(states, events, i);
  }

  // ----- the contents survive a replacement

  /** Every copy that is, or can become, the live vault carries the plaintext c. */
  ghost predicate Carries(s: Sys, c: Plaintext) {
    && s.disk.vault.Some? && s.disk.vault.value.plaintext == c
    && (s.disk.txn.Some? && s.disk.pendingVault.Some? ==> s.disk.pendingVault.value.plaintext == c)
    && match s.process
       case Down => true
       case Idle(session, _) => session.plaintext == c
       case Pairing(from, x) => (from.Some? ==> from.value.plaintext == c) && (x.progress != Failing ==> x.blob.plaintext == c)
  }

  lemma PhoneStepKeepsContents(s: Sys, e: Event, t: Sys, c: Plaintext)
    requires Carries(s, c) && PhoneStep(s, e, t)
    ensures Carries(t, c) && t.password == s.password
  {
  }

  lemma DesktopStepKeepsContents(s: Sys, e: Event, t: Sys, c: Plaintext)
    requires Agreement(s) && ProcessOk(s) && Carries(s, c) && DesktopStep(s, e, t) && !e.DesktopSaves?
    ensures Carries(t, c)
  {
    if e.DesktopWrites? {
      match e.d {
        case WritePendingVault(_) =>
        case WritePendingRecord(_) =>
        case CopyVaultToRollback =>
        case CopyRecordToRollback =>
        case WriteTxn(_) =>
        case PromoteVault =>
        case PromoteRecord =>
        case Remove(_) =>
      }
    }
  }

  lemma StepKeepsContents(s: Sys, e: Event, t: Sys, c: Plaintext)
    requires Inv(s) && Carries(s, c) && Step(s, e, t) && !e.DesktopSaves?
    ensures Carries(t, c)
  {
    if PhoneStep(s, e, t) {
      PhoneStepKeepsContents(s, e, t, c);
    } else {
      DesktopStepKeepsContents(s, e, t, c);
    }
  }

  lemma {:induction false} RunStepKeepsContents(states: seq<Sys>, events: seq<Event>, k: nat, c: Plaintext)
    requires CarefulRun(states, events, k) && k < |events| && Carries(states[k], c) && !events[k].DesktopSaves?
    ensures Carries(states[k + 1], c)
  {
    RunKeepsInv(states, events, k);
    assert Step(states[k], events[k], states[k + 1]);
    StepKeepsContents(states[k], events[k], states[k + 1], c);
  }

  /** Unless an entry is saved, every copy that is live or on its way to be carries the same plaintext. */
  lemma {:induction false} ContentsCarried(states: seq<Sys>, events: seq<Event>, i: nat, k: nat, c: Plaintext)
    requires CarefulRun(states, events, k) && i <= k && Carries(states[i], c)
    requires forall j :: i <= j < k ==> !events[j].DesktopSaves?
    ensures Carries(states[k], c)
  {
    if i < k {
      ContentsCarried(states, events, i, k - 1, c);
      assert !events[k - 1].DesktopSaves?;
      RunStepKeepsContents(states, events, k - 1, c);
    }
  }

  lemma DesktopKeepsPassword(s: Sys, e: Event, t: Sys)
    requires DesktopStep(s, e, t) && !e.DesktopRotates? && s.disk.vault.Some?
    ensures t.password == s.password
  {
  }

  lemma OnlyRotationsChangeThePassword(s: Sys, e: Event, t: Sys)
    requires Step(s, e, t) && !e.DesktopRotates? && s.disk.vault.Some?
    ensures t.password == s.password
  {
    if DesktopStep(s, e, t) {
      DesktopKeepsPassword(s, e, t);
    }
  }

  lemma {:induction false} PasswordStays(states: seq<Sys>, events: seq<Event>, i: nat, k: nat, c: Plaintext)
    requires CarefulRun(states, events, k) && i <= k && Carries(states[i], c)
    requires forall j :: i <= j < k ==> !events[j].DesktopSaves? && !events[j].DesktopRotates?
    ensures states[k].password == states[i].password
  {
    if i < k {
      PasswordStays(states, events, i, k - 1, c);
      ContentsCarried(states, events, i, k - 1, c);
      assert !events[k - 1].DesktopRotates? && Step(states[k - 1], events[k - 1], states[k]);
      OnlyRotationsChangeThePassword(states[k - 1], events[k - 1], states[k]);
    }
  }

  /**
   From any point of a run, through replacements, crashes, recoveries and password changes alike: unless an
   entry is saved, the live vault opens with the current password and a phone-held share, to the same plaintext.
   */
  lemma {:induction false} ContentsSurvive(states: seq<Sys>, events: seq<Event>, i: nat, k: nat, c: Plaintext)
    requires CarefulRun(states, events, k) && i <= k && Carries(states[i], c)
    requires forall j :: i <= j < k ==> !events[j].DesktopSaves?
    ensures Carries(states[k], c) && Decryptable(states[k])
    ensures (forall j :: i <= j < k ==> !events[j].DesktopRotates?) ==> states[k].password == states[i].password
  {
    ContentsCarried(states, events, i, k, c);
    if forall j :: i <= j < k ==> !events[j].DesktopRotates? {
      PasswordStays(states, events, i, k, c);
    }
    VaultStaysDecryptable(states, events, k);
  }

  lemma OnlyPromotionWrites(s: Sys, e: Event, t: Sys)
    requires ProcessOk(s) && Step(s, e, t) && s.disk.txn.Some? && t.disk.vault != s.disk.vault
    ensures e == DesktopWrites(D.PromoteVault) && t.disk.vault == s.disk.pendingVault && !s.process.Idle?
  {
    if DesktopStep(s, e, t) {
      if e.DesktopWrites? {
        assert e.d.PromoteVault?;
      }
    }
  }

  /** No ordinary write to vault.enc happens while a transaction file exists. */
  lemma {:induction false} NoSaveDuringTransaction(states: seq<Sys>, events: seq<Event>, i: nat)
    requires CarefulRun(states, events, i) && i < |events|
    requires states[i].disk.txn.Some? && states[i + 1].disk.vault != states[i].disk.vault
    ensures events[i] == DesktopWrites(D.PromoteVault) && states[i + 1].disk.vault == states[i].disk.pendingVault
    ensures !states[i].process.Idle?
  {
    RunKeepsInv(states, events, i);
    assert Step(states[i], events[i], states[i + 1]);
    OnlyPromotionWrites(states[i], events[i], states[i + 1]);
  }

  // ----- open sessions

  /** A vault sealed under the session's share matches the phone exactly when the session is current. */
  lemma SealedBySessionMatchesIff(s: Sys, session: Session, t: Sys)
    requires HistoryOk(s) && MintedOk(s) && LiveMatches(s) && SessionOk(s, session)
    requires t.disk.vault.Some? && t.disk.vault.value.key.share == session.share
    requires t.disk.record == s.disk.record && t.phone == s.phone
    ensures LiveMatches(t) <==> Current(s, session)
  {
  }

  lemma SessionWriteMatchesIff(s: Sys, e: Event, t: Sys)
    requires Inv(s) && DesktopStep(s, e, t) && (e.DesktopSaves? || e.DesktopRotates?)
    ensures s.process.Idle?
    ensures LiveMatches(t) <==> Current(s, s.process.session)
  {
    SealedBySessionMatchesIff(s, s.process.session, t);
  }

  /** A save leaves a vault that the phone's active share opens exactly when its session belongs to the paired generation. */
  lemma {:induction false} SaveKeepsVaultOpenIff(states: seq<Sys>, events: seq<Event>, i: nat)
    requires CarefulRun(states, events, i) && i < |events| && events[i].DesktopSaves?
    ensures states[i].process.Idle?
    ensures LiveMatches(states[i + 1]) <==> Current(states[i], states[i].process.session)
  {
    RunKeepsInv(states, events, i);
    assert DesktopStep(states[i], events[i], states[i + 1]);
    SessionWriteMatchesIff(states[i], events[i], states[i + 1]);
  }

  lemma {:induction false} RotationKeepsVaultOpenIff(states: seq<Sys>, events: seq<Event>, i: nat)
    requires CarefulRun(states, events, i) && i < |events| && events[i].DesktopRotates?
    ensures states[i].process.Idle?
    ensures LiveMatches(states[i + 1]) <==> Current(states[i], states[i].process.session)
  {
    RunKeepsInv(states, events, i);
    assert DesktopStep(states[i], events[i], states[i + 1]);
    SessionWriteMatchesIff(states[i], events[i], states[i + 1]);
  }

  // ----- the one window

  /** An open session that no longer belongs to the paired generation. */
  ghost predicate Superseded(s: Sys) {
    s.process.Idle? && !Current(s, s.process.session)
  }

  /** A pairing that failed returns to the session it started from, and pairing.json already names another generation. */
  ghost predicate FallsBehind(s: Sys, e: Event) {
    e.DesktopReturns? && s.process.Pairing? && s.process.from.Some? && !Current(s, s.process.from.value)
  }

  lemma PhoneStepSupersedesNothing(s: Sys, e: Event, t: Sys)
    requires PhoneStep(s, e, t)
    ensures Superseded(t) <==> Superseded(s)
  {
  }

  lemma DesktopStepSupersedesIff(s: Sys, e: Event, t: Sys)
    requires Agreement(s) && ProcessOk(s) && DesktopStep(s, e, t)
    ensures Superseded(t) <==> t.process.Idle? && (Superseded(s) || FallsBehind(s, e))
  {
    if e.DesktopWrites? {
      match e.d {
        case WritePendingVault(_) =>
        case WritePendingRecord(_) =>
        case CopyVaultToRollback =>
        case CopyRecordToRollback =>
        case WriteTxn(_) =>
        case PromoteVault =>
        case PromoteRecord =>
        case Remove(_) =>
      }
    }
  }

  /** No window up to i: whenever a failed pairing returned to its session, pairing.json still named that session's generation. */
  ghost predicate NoWindow(states: seq<Sys>, events: seq<Event>, i: nat) {
    && Run(states, events) && i <= |events|
    && forall j :: 0 <= j < i ==> !FallsBehind(states[j], events[j])
  }

  /** Outside the window every open session of every run belongs to the paired generation, so every event is careful. */
  lemma {:induction false} SessionsStayCurrent(states: seq<Sys>, events: seq<Event>, i: nat)
    requires NoWindow(states, events, i)
    ensures CarefulRun(states, events, i)
    ensures Inv(states[i]) && !Superseded(states[i])
  {
    if i == 0 {
      StartOk();
    } else {
      SessionsStayCurrent(states, events, i - 1);
      var s, e, t := states[i - 1], events[i - 1], states[i];
      assert Step(s, e, t) && !FallsBehind(s, e);
      StepKeepsInv(s, e, t);
      if PhoneStep(s, e, t) {
        PhoneStepSupersedesNothing(s, e, t);
      } else {
        DesktopStepSupersedesIff(s, e, t);
      }
    }
  }

  /** Over every run outside the window, whatever writes fail: an open session has the key and salt of vault.enc. */
  lemma {:induction false} SessionOpensVault(states: seq<Sys>, events: seq<Event>, i: nat)
    requires NoWindow(states, events, i) && states[i].process.Idle?
    ensures var s := states[i];
            && s.disk.vault.Some? && s.disk.vault.value.salt == s.process.session.salt
            && Open(s.disk.vault.value, s.process.session.key) == Some(s.disk.vault.value.plaintext)
  {
    SessionsStayCurrent(states, events, i);
  }

  lemma SupersededDoesNotOpen(s: Sys)
    requires Inv(s) && Superseded(s)
    ensures s.disk.vault.Some? && Open(s.disk.vault.value, s.process.session.key).None?
  {
    var g := s.disk.record.value.gen;
    assert s.disk.vault.value.key.share == s.minted[g].share && s.process.session.share == s.minted[s.process.session.gen].share;
  }

  /** Inside it an open session does not open the vault: the window is exactly where the guarantee ends. */
  lemma {:induction false} WindowClosesTheVault(states: seq<Sys>, events: seq<Event>, i: nat)
    requires CarefulRun(states, events, i) && i < |events| && events[i].DesktopReturns? && states[i + 1].process.Idle?
    ensures var t := states[i + 1];
            && t.disk.vault.Some?
            && (Open(t.disk.vault.value, t.process.session.key).Some? <==> !FallsBehind(states[i], events[i]))
  {
    RunKeepsInv(states, events, i);
    var s, t := states[i], states[i + 1];
    assert Step(s, events[i], t);
    StepKeepsInv(s, events[i], t);
    DesktopStepSupersedesIff(s, events[i], t);
    if Superseded(t) {
      SupersededDoesNotOpen(t);
    }
  }

  // ----- what closes the window

  /** The phone app holds no secrets but those of the active generation. */
  predicate MemoryCurrent(s: Sys) {
    s.memory.None? || s.memory == s.phone.active
  }

  /** A superseded session gets an approval only while the phone app holds the superseded secrets, and their key, too. */
  lemma StaleApprovalNeedsStalePhone(s: Sys, t: Sys)
    requires Inv(s) && DesktopStep(s, DesktopGetsApproval, t) && Superseded(s)
    ensures !MemoryCurrent(s) && Signs(s, s.process.session.gen)
  {
  }

  lemma DesktopLeavesPhoneAlone(s: Sys, e: Event, t: Sys)
    requires DesktopStep(s, e, t)
    ensures t.phone == s.phone && t.memory == s.memory && !e.PhoneWrites? && !e.PhoneLocks? && !e.PhoneUnlocks? && !e.PhoneRestarts?
  {
  }

  /** The app falls behind only when the active pointer flips under it; a lock, an unlock or a restart puts an end to that. */
  lemma MemoryFallsBehindOnlyAtFlip(s: Sys, e: Event, t: Sys)
    requires Step(s, e, t)
    ensures MemoryCurrent(s) && !MemoryCurrent(t) ==> exists g :: e == PhoneWrites(P.Activate(g), P.SetPointer(P.Active, g))
    ensures e.PhoneLocks? || e.PhoneUnlocks? || e.PhoneRestarts? ==> MemoryCurrent(t)
  {
    if DesktopStep(s, e, t) {
      DesktopLeavesPhoneAlone(s, e, t);
    } else if e.PhoneWrites? {
      if t.phone.active != s.phone.active {
        PhoneHistory.ActiveMovesOnlyAtFlip(e.op, s.phone, e.w);
      }
    }
  }

  /** Whatever has the phone's approval belongs to the paired generation. */
  ghost predicate ApprovedIsCurrent(s: Sys) {
    Approved(s) ==> Current(s, s.process.session)
  }

  lemma StepKeepsApprovals(s: Sys, e: Event, t: Sys)
    requires Inv(s) && Step(s, e, t) && ApprovedIsCurrent(s)
    requires e.DesktopGetsApproval? ==> MemoryCurrent(s)
    ensures Careful(s, e) && ApprovedIsCurrent(t)
  {
    if PhoneStep(s, e, t) {
      PhoneStepSupersedesNothing(s, e, t);
    } else {
      DesktopStepSupersedesIff(s, e, t);
      if e.DesktopGetsApproval? && Superseded(s) {
        StaleApprovalNeedsStalePhone(s, t);
      }
    }
  }

  /** If the app has caught up whenever it approves a session's command, the run is careful, flips under an unlocked app included. */
  lemma {:induction false} CurrentMemorySuffices(states: seq<Sys>, events: seq<Event>, n: nat)
    requires Run(states, events) && n <= |events|
    requires forall j :: 0 <= j < n && events[j].DesktopGetsApproval? ==> MemoryCurrent(states[j])
    ensures CarefulRun(states, events, n) && Inv(states[n]) && ApprovedIsCurrent(states[n])
  {
    if n == 0 {
      StartOk();
    } else {
      CurrentMemorySuffices(states, events, n - 1);
      assert Step(states[n - 1], events[n - 1], states[n]);
      StepKeepsApprovals(states[n - 1], events[n - 1], states[n]);
      RunKeepsInv(states, events, n);
    }
  }
}
