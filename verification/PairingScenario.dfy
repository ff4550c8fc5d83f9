/** Runs that do happen: a pairing can complete, and the stale-session window can be reached. */
module PairingScenario {
  import opened PairingTypes
  import opened PairingProtocol
  import opened PairingInvariant
  import P = PhoneStore
  import D = DesktopDisk

  ghost predicate Reachable(s: Sys) {
    exists states, events :: Run(states, events) && states[|events|] == s
  }

  lemma StartReachable()
    ensures Reachable(START)
  {
    assert Run([START], []);
  }

  lemma Then(s: Sys, e: Event, t: Sys)
    requires Reachable(s) && Step(s, e, t)
    ensures Reachable(t)
  {
    var states, events :| Run(states, events) && states[|events|] == s;
    var states', events' := states + [t], events + [e];
    forall i | 0 <= i < |events'| ensures Step(states'[i], events'[i], states'[i + 1]) {
      if i < |events| {
        assert Step(states[i], events[i], states[i + 1]);
      }
    }
    assert Run(states', events') && states'[|events'|] == t;
  }

  /** One durable write on the phone. */
  lemma Writes(s: Sys, op: P.Op, w: P.Write) returns (t: Sys)
    requires Reachable(s)
    requires P.Legal(op, s.phone, w) && Authorized(s, op) && (w.PutBundle? ==> Fresh(s, w.b))
    ensures Reachable(t) && t == AfterPhoneWrite(s, w)
  {
    t := AfterPhoneWrite(s, w);
    Then(s, PhoneWrites(op, w), t);
  }

  lemma DesktopChanges(s: Sys, w: D.Write) returns (t: Sys)
    requires Reachable(s) && D.Legal(s.disk, w) && Reaches(s, w) && !w.WriteTxn?
    ensures Reachable(t) && t == s.(disk := D.Apply(s.disk, w))
  {
    t := s.(disk := D.Apply(s.disk, w));
    Then(s, DesktopWrites(w), t);
  }

  /** Nothing staged or half done on the phone, and g is new. */
  predicate ReadyFor(s: Sys, g: Gen, share: Share) {
    && s.phone.staging.None? && s.phone.pending.None? && s.phone.committed.None? && s.phone.retiring.None?
    && s.phone.active != Some(g) && g !in s.setups && g !in s.minted && g !in s.phone.keys
    && (forall h :: h in s.minted ==> s.minted[h].share != share)
  }

  function BundleOf(g: Gen, share: Share): P.Bundle {
    P.Bundle(g, share, DESKTOP, true)
  }

  /** A setup runs up to its hello. */
  function Published(s: Sys, g: Gen, share: Share): Sys {
    s.(phone := s.phone.(staging := Some(g), pending := Some(g),
                         bundles := s.phone.bundles[g := BundleOf(g, share)], keys := s.phone.keys + {g}),
       setups := s.setups[g := Dialled], hellos := s.hellos + {g},
       minted := s.minted[g := BundleOf(g, share)])
  }

  /** The setup's durable writes: staging, key, bundle, pending. */
  lemma StoreReachable(s: Sys, g: Gen, share: Share) returns (t: Sys)
    requires Reachable(s) && ReadyFor(s, g, share)
    requires s.phone.active.Some? ==> s.phone.active.value in s.wasActive
    ensures Reachable(t) && t == s.(phone := t.phone, setups := s.setups[g := Preparing], minted := s.minted[g := BundleOf(g, share)])
    ensures t.phone == Published(s, g, share).phone
  {
    var b := BundleOf(g, share);
    var s1 := s.(setups := s.setups[g := Preparing]);
    Then(s, SetupStarts(g), s1);
    var s2 := Writes(s1, P.Begin(g), P.SetPointer(P.Staging, g));
    var s3 := Writes(s2, P.Generate(g), P.AddKey(g));
    var s4 := Writes(s3, P.Publish(b), P.PutBundle(b));
    t := Writes(s4, P.Publish(b), P.SetPointer(P.Pending, g));
    assert t.wasActive == s.wasActive && t.wasCommitted == s.wasCommitted;
  }

  lemma PublishReachable(s: Sys, g: Gen, share: Share)
    requires Reachable(s) && ReadyFor(s, g, share)
    requires s.phone.active.Some? ==> s.phone.active.value in s.wasActive
    ensures Reachable(Published(s, g, share))
  {
    var s1 := StoreReachable(s, g, share);
    var s2 := s1.(setups := s1.setups[g := Signed]);
    Then(s1, SetupSigns(g), s2);
    var t := s2.(setups := s2.setups[g := Dialled], hellos := s2.hellos + {g});
    Then(s2, SetupDials(g), t);
    assert t.setups == Published(s, g, share).setups;
  }

  /** The desktop has the hello of g and no transaction; the phone waits. */
  predicate Collected(s: Sys, x: Exchange) {
    && s.process.Pairing? && s.process.exchange == x && x.progress == Collecting
    && s.disk.vault.Some? == s.disk.record.Some?
    && s.disk.txn.None? && s.disk.rollbackVault.None? && s.disk.rollbackRecord.None?
    && x.gen in s.setups && s.setups[x.gen] == Dialled
    && s.phone.pending == Some(x.gen) && s.phone.staging == Some(x.gen) && s.phone.committed.None? && s.phone.retiring.None?
    && x.gen in s.phone.bundles && s.phone.active != Some(x.gen)
  }

  lemma VerifyReachable(s: Sys, x: Exchange) returns (t: Sys)
    requires Reachable(s) && Collected(s, x)
    ensures Reachable(t) && t == s.(process := t.process, disk := t.disk, net := t.net)
    ensures t.process == WithProgress(s.process, Verified)
    ensures t.disk == s.disk.(pendingVault := Some(x.blob), pendingRecord := Some(D.Record(x.gen, PHONE)))
  {
    var g := x.gen;
    var s1 := DesktopChanges(s, D.WritePendingVault(x.blob));
    var s2 := DesktopChanges(s1, D.WritePendingRecord(D.Record(g, PHONE)));
    var s3 := s2.(net := s2.net + {Prepared(g)});
    Then(s2, DesktopSends(Prepared(g)), s3);
    var s4 := s3.(net := s3.net + {Ready(g)});
    Then(s3, PhoneSendsReady(g), s4);
    t := s4.(process := WithProgress(s4.process, Verified));
    Then(s4, DesktopVerifies, t);
  }

  lemma PrepareReachable(s: Sys, x: Exchange) returns (t: Sys)
    requires Reachable(s) && s.process.Pairing? && s.process.exchange == x && x.progress == Verified
    requires s.disk.txn.None? && s.disk.rollbackVault.None? && s.disk.rollbackRecord.None?
    requires s.disk.vault.Some? == s.disk.record.Some?
    ensures Reachable(t) && t == s.(process := WithProgress(s.process, Started), disk := D.PreparedFor(s.disk, x.gen))
  {
    var s1 := s;
    if s.disk.vault.Some? {
      s1 := DesktopChanges(s, D.CopyVaultToRollback);
      s1 := DesktopChanges(s1, D.CopyRecordToRollback);
    }
    var txn := D.Txn(D.Prepared, x.gen, s.disk.vault.Some?, s.disk.record.Some?);
    t := s1.(process := WithProgress(s.process, Started), disk := s1.disk.(txn := Some(txn)));
    Then(s1, DesktopWrites(D.WriteTxn(txn)), t);
  }

  lemma Advances(s: Sys, phase: D.Phase) returns (t: Sys)
    requires Reachable(s) && s.disk.txn.Some? && phase != D.Prepared
    requires D.Legal(s.disk, D.WriteTxn(s.disk.txn.value.(phase := phase)))
    requires Reaches(s, D.WriteTxn(s.disk.txn.value.(phase := phase)))
    ensures Reachable(t) && t == s.(disk := D.Advanced(s.disk, phase))
  {
    t := s.(disk := D.Advanced(s.disk, phase));
    Then(s, DesktopWrites(D.WriteTxn(s.disk.txn.value.(phase := phase))), t);
  }

  /** The phone commits and the desktop hears of it. */
  lemma CommitReachable(s: Sys, g: Gen) returns (t: Sys)
    requires Reachable(s) && D.InPhase(s.disk, D.Prepared) && s.disk.txn.value.gen == g
    requires s.phone.pending == Some(g) && s.phone.active != Some(g) && g in s.phone.bundles
    requires s.phone.active.Some? ==> s.phone.active.value in s.wasActive
    ensures Reachable(t)
    ensures t == s.(disk := D.Advanced(s.disk, D.PhoneCommitted), net := t.net,
                    phone := s.phone.(committed := Some(g)), wasCommitted := s.wasCommitted + {g})
  {
    var s1 := s.(net := s.net + {Commit(g)});
    Then(s, DesktopSends(Commit(g)), s1);
    var s2 := Writes(s1, P.Commit(g), P.SetPointer(P.Committed, g));
    assert s2.wasActive == s.wasActive;
    var s3 := s2.(net := s2.net + {CommitAck(g)});
    Then(s2, PhoneAcksCommit(g), s3);
    t := Advances(s3, D.PhoneCommitted);
  }

  /** From Prepared to the promoted vault: the phone commits, the desktop renames. */
  lemma PromoteReachable(s: Sys, g: Gen) returns (t: Sys)
    requires Reachable(s) && D.InPhase(s.disk, D.Prepared) && s.disk.txn.value.gen == g
    requires D.RollbackCaptured(s.disk, s.disk.txn.value) && s.disk.pendingVault.Some? && s.disk.pendingRecord.Some?
    requires s.phone.pending == Some(g) && s.phone.active != Some(g) && g in s.phone.bundles
    requires s.phone.active.Some? ==> s.phone.active.value in s.wasActive
    ensures Reachable(t)
    ensures t == s.(disk := D.Advanced(D.Promoted(s.disk), D.LocallyActivated), net := t.net,
                    phone := s.phone.(committed := Some(g)), wasCommitted := s.wasCommitted + {g})
  {
    var s1 := CommitReachable(s, g);
    var s2 := DesktopChanges(s1, D.PromoteVault);
    var s3 := DesktopChanges(s2, D.PromoteRecord);
    t := Advances(s3, D.LocallyActivated);
  }

  /** The phone flips its active pointer to g and acknowledges. */
  lemma FlipReachable(s: Sys, g: Gen) returns (t: Sys)
    requires Reachable(s) && Activate(g) in s.net
    requires P.Activatable(s.phone, g) && s.phone.retiring.None? && g in s.wasCommitted
    requires s.phone.active.Some? ==> s.phone.active.value in s.wasActive
    ensures Reachable(t) && t == s.(net := s.net + {ActivateAck(g)}, phone := t.phone, wasActive := s.wasActive + {g})
    ensures t.phone == s.phone.(active := Some(g), retiring := s.phone.active)
  {
    var u := s;
    if s.phone.active.Some? {
      u := Writes(s, P.Activate(g), P.SetPointer(P.Retiring, s.phone.active.value));
      assert u.wasActive == s.wasActive;
    }
    u := Writes(u, P.Activate(g), P.SetPointer(P.Active, g));
    t := u.(net := u.net + {ActivateAck(g)});
    Then(u, PhoneAcksActivate(g), t);
    assert t.wasCommitted == s.wasCommitted && t.minted == s.minted;
  }

  /** The phone clears the pointers of the activated generation. */
  lemma TidyReachable(s: Sys, g: Gen) returns (t: Sys)
    requires Reachable(s) && s.phone.active == Some(g) && g in s.wasActive && g in s.wasCommitted
    requires s.phone.staging == Some(g) && s.phone.pending == Some(g) && s.phone.committed == Some(g)
    ensures Reachable(t) && t == s.(phone := s.phone.(staging := None, pending := None, committed := None))
  {
    var u := Writes(s, P.Check, P.ClearPointer(P.Staging));
    u := Writes(u, P.Check, P.ClearPointer(P.Pending));
    t := Writes(u, P.Check, P.ClearPointer(P.Committed));
    assert t.wasActive == s.wasActive && t.wasCommitted == s.wasCommitted;
  }

  /** The phone destroys the generation it retired. */
  lemma DestroyReachable(s: Sys, g: Gen) returns (t: Sys)
    requires Reachable(s) && s.phone.retiring == Some(g) && s.phone.active.Some? && s.phone.active != Some(g)
    requires s.phone.active.value in s.wasActive && s.phone.committed.None?
    ensures Reachable(t) && t == s.(phone := P.Removed(s.phone, g).(retiring := None))
  {
    var u := Writes(s, P.Check, P.DropKey(g));
    u := Writes(u, P.Check, P.DropBundle(g));
    t := Writes(u, P.Check, P.ClearPointer(P.Retiring));
    assert t.wasActive == s.wasActive && t.wasCommitted == s.wasCommitted;
  }

  /** The phone activates g and finishes; the desktop removes its transaction file. */
  lemma ActivateReachable(s: Sys, g: Gen) returns (t: Sys)
    requires Reachable(s) && D.InPhase(s.disk, D.LocallyActivated) && s.disk.txn.value.gen == g
    requires s.disk.pendingVault.None? && s.disk.pendingRecord.None?
    requires P.Activatable(s.phone, g) && s.phone.staging == Some(g) && s.phone.retiring.None?
    requires s.phone.active.Some? ==> s.phone.active.value in s.wasActive
    requires g in s.wasCommitted
    ensures Reachable(t) && t == s.(disk := s.disk.(txn := None), net := t.net, phone := t.phone, wasActive := s.wasActive + {g})
    ensures t.phone == s.phone.(active := Some(g), retiring := s.phone.active, staging := None, pending := None, committed := None)
  {
    var s1 := s.(net := s.net + {Activate(g)});
    Then(s, DesktopSends(Activate(g)), s1);
    var s2 := FlipReachable(s1, g);
    var s3 := TidyReachable(s2, g);
    var s4 := Advances(s3, D.FullyActivated);
    t := DesktopChanges(s4, D.Remove(D.TxnFile));
  }

  /** An exchange runs from the hello until its transaction file is gone again. */
  lemma TransactionReachable(s: Sys, x: Exchange) returns (t: Sys)
    requires Reachable(s) && Collected(s, x)
    requires s.phone.active.Some? ==> s.phone.active.value in s.wasActive
    ensures Reachable(t)
    ensures t == s.(disk := t.disk, process := WithProgress(s.process, Started), net := t.net, phone := t.phone,
                    wasCommitted := t.wasCommitted, wasActive := s.wasActive + {x.gen})
    ensures t.disk == D.Disk(Some(x.blob), Some(D.Record(x.gen, PHONE)), None, None, s.disk.vault, s.disk.record, None)
    ensures t.phone == s.phone.(active := Some(x.gen), retiring := s.phone.active, staging := None, pending := None, committed := None)
  {
    var s1 := VerifyReachable(s, x);
    var s2 := PrepareReachable(s1, x.(progress := Verified));
    var s3 := PromoteReachable(s2, x.gen);
    t := ActivateReachable(s3, x.gen);
  }

  /** A new vault is set up from nothing, and both processes come to rest. */
  lemma InitCompletes() returns (t: Sys)
    ensures Reachable(t) && t.process.Down? && D.Recovered(t.disk) && t.memory == Some(1)
    ensures t.disk.vault == Some(Seal(LocalSecret("pw", 7), 10, 7, [])) && t.disk.record == Some(D.Record(1, PHONE))
    ensures t.phone == P.Store(Some(1), None, None, None, None, map[1 := BundleOf(1, 10)], {1}, map[])
    ensures t.minted == map[1 := BundleOf(1, 10)] && t.setups == map[1 := Dialled] && t.wasActive == {1} && t.hellos == {}
    ensures t.password == "pw"
  {
    StartReachable();
    PublishReachable(START, 1, 10);
    var s1 := Published(START, 1, 10);
    var x := Exchange(1, Seal(LocalSecret("pw", 7), 10, 7, []), Collecting);
    var s2 := s1.(hellos := s1.hellos - {1}, password := "pw", process := Pairing(None, x));
    Then(s1, DesktopInits(1, "pw", 7), s2);
    var s3 := TransactionReachable(s2, x);
    var s4 := s3.(process := Down);
    Then(s3, DesktopFinishes, s4);
    t := s4.(memory := Some(1));
    Then(s4, PhoneUnlocks, t);
  }

  const OLD_SESSION := Session(1, LocalSecret("pw", 7), 10, VaultKey(LocalSecret("pw", 7), 10), 7, [])

  const REPLACEMENT := Exchange(2, Seal(LocalSecret("pw", 7), 20, 7, []), Collecting)

  /** The vault is unlocked, a second phone setup runs, and the desktop starts to replace the share. */
  lemma ReplacementStarts() returns (t: Sys)
    ensures Reachable(t) && Collected(t, REPLACEMENT) && t.process.from == Some(OLD_SESSION)
    ensures t.memory == Some(1) && t.phone.active == Some(1) && t.wasActive == {1} && t.password == "pw" && 1 in t.phone.keys
    ensures t.phone.bundles == map[1 := BundleOf(1, 10), 2 := BundleOf(2, 20)]
  {
    var s0 := InitCompletes();
    var s1 := s0.(process := Idle(OLD_SESSION, true));
    Then(s0, DesktopUnlocks("pw"), s1);
    PublishReachable(s1, 2, 20);
    var s2 := Published(s1, 2, 20);
    t := s2.(hellos := s2.hellos - {2}, process := Pairing(Some(OLD_SESSION), REPLACEMENT));
    Then(s2, DesktopPairs(2), t);
  }

  /** The clean-up fails with the transaction file already gone, and the program keeps the session it had. */
  lemma FailureReturns(s: Sys) returns (t: Sys)
    requires Reachable(s) && s.process.Pairing? && s.process.from.Some? && s.disk.txn.None?
    ensures Reachable(t) && t == s.(process := Idle(s.process.from.value, false))
  {
    var u := s.(process := WithProgress(s.process, Failing));
    Then(s, DesktopFails, u);
    t := u.(process := Idle(s.process.from.value, false));
    Then(u, DesktopReturns, t);
  }

  /** A replacement runs until its final clean-up fails after the transaction file is gone. */
  lemma StaleSessionReachable() returns (t: Sys)
    ensures Reachable(t) && t.process == Idle(OLD_SESSION, true)
    ensures t.disk.record == Some(D.Record(2, PHONE)) && t.disk.vault.Some? && t.password == "pw"
    ensures t.phone.bundles == map[1 := BundleOf(1, 10), 2 := BundleOf(2, 20)]
    ensures t.phone.active == Some(2) && t.phone.retiring == Some(1) && t.phone.committed.None? && 2 in t.wasActive
  {
    var s0 := ReplacementStarts();
    var s1 := TransactionReachable(s0, REPLACEMENT);
    var s2 := FailureReturns(s1);
    t := s2.(process := Idle(OLD_SESSION, true));
    Then(s2, DesktopGetsApproval, t);
  }

  /** Its next save is still approved under the retired generation, which the phone then destroys: no share is left that opens the vault. */
  lemma StaleSaveLosesTheVault() returns (s: Sys, t: Sys, u: Sys)
    ensures Reachable(s) && Step(s, DesktopSaves(["entry"], true), t) && !Current(s, s.process.session)
    ensures Reachable(u) && u.disk == t.disk && u.password == t.password && u.disk.vault.Some?
    ensures forall g :: g in u.phone.bundles ==> Unseal(u.disk.vault.value, u.password, u.phone.bundles[g].share).None?
  {
    s := StaleSessionReachable();
    var from := s.process.session;
    t := s.(disk := s.disk.(vault := Some(Blob(from.salt, from.key, ["entry"]))),
            process := s.process.(session := from.(plaintext := ["entry"])));
    Then(s, DesktopSaves(["entry"], true), t);
    u := DestroyReachable(t, 1);
    assert u.phone.bundles == map[2 := BundleOf(2, 20)];
  }
}
