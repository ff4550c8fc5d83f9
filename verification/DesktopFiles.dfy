/** The desktop's file operations around a pairing transaction. Any write may fail, before or after it takes effect. */
module DesktopFileStore {
  import opened PairingTypes
  import opened DesktopDisk

  class DesktopFiles {
    var vault: Option<Blob>
    var record: Option<Record>
    var pendingVault: Option<Blob>
    var pendingRecord: Option<Record>
    var rollbackVault: Option<Blob>
    var rollbackRecord: Option<Record>
    var txn: Option<Txn>
    const faulty: bool
    ghost const origin: Disk
    /** Every write that took effect, in order. */
    ghost var log: seq<Write>

    function View(): Disk
      reads this
    {
      Disk(vault, record, pendingVault, pendingRecord, rollbackVault, rollbackRecord, txn)
    }

    ghost predicate Valid()
      reads this
    {
      View() == ApplyAll(origin, log)
    }

    /** Every write so far was one the desktop makes with the files it found. */
    ghost predicate Lawful()
      reads this
    {
      DesktopDisk.Lawful(origin, log)
    }

    constructor (faulty: bool)
      ensures Valid() && Lawful() && View() == BLANK && log == [] && this.faulty == faulty
    {
      vault, record, pendingVault, pendingRecord := None, None, None, None;
      rollbackVault, rollbackRecord, txn := None, None, None;
      this.faulty := faulty;
      origin, log := BLANK, [];
    }

    /** One private-file write, rename or removal; an error may be reported after it took effect. */
    method Change(w: Write) returns (r: Status)
      requires Valid()
      modifies this
      ensures Valid() && old(log) <= log
      ensures View() == old(View()) || View() == Apply(old(View()), w)
      ensures r.Ok? ==> View() == Apply(old(View()), w)
      ensures r.Err? ==> faulty && r.error == StorageFailure
      ensures log == old(log) || log == old(log) + [w]
      ensures old(Lawful()) && Legal(old(View()), w) ==> Lawful()
    {
      var failsBefore, failsAfter := *, *;
      if faulty && failsBefore {
        return Err(StorageFailure);
      }
      LogExtended(origin, log, w);
      log := log + [w];
      match w {
        case WriteVault(b) => vault := Some(b);
        case WritePendingVault(b) => pendingVault := Some(b);
        case WritePendingRecord(p) => pendingRecord := Some(p);
        case CopyVaultToRollback => rollbackVault := vault;
        case CopyRecordToRollback => rollbackRecord := record;
        case WriteTxn(t) => txn := Some(t);
        case PromoteVault => vault, pendingVault := pendingVault, None;
        case PromoteRecord => record, pendingRecord := pendingRecord, None;
        case Remove(f) =>
          match f {
            case PendingRecordFile => pendingRecord := None;
            case PendingVaultFile => pendingVault := None;
            case TxnFile => txn := None;
            case RollbackRecordFile => rollbackRecord := None;
            case RollbackVaultFile => rollbackVault := None;
          }
      }
      r := if faulty && failsAfter then Err(StorageFailure) else DONE;
    }

    /** parsed is what reading an existing record comes to; legacy says whether files of the old pairing are around. */
    method Status(parsed: Parsed, legacy: bool) returns (s: PairingStatus)
      ensures s == Pending <==> pendingRecord.Some? || txn.Some?
      ensures s == Ready <==> txn.None? && pendingRecord.None? && record.Some? && parsed == Readable
      ensures s == MissingPhoneId <==> txn.None? && pendingRecord.None? && record.None? && !legacy
      ensures s == InvalidPhoneId <==> txn.None? && pendingRecord.None? && record.Some? && parsed == BadPhoneId
    {
      if pendingRecord.Some? || txn.Some? {
        return Pending;
      }
      if record.Some? {
        return match parsed case Readable => Ready case BadPhoneId => InvalidPhoneId case BadRecord => InvalidPairing;
      }
      s := if legacy then InvalidPairing else MissingPhoneId;
    }

    /** Removes files in order, skipping absent ones. */
    method RemoveAll(files: seq<File>) returns (r: Status)
      requires Valid()
      modifies this
      ensures Valid() && old(log) <= log
      ensures OnlyRemoved(old(View()), View(), files)
      ensures (forall i :: |old(log)| <= i < |log| ==> log[i].Remove? && log[i].f in files)
      ensures r.Ok? ==> View() == WithoutAll(old(View()), files)
      ensures r.Err? ==> faulty && r.error == StorageFailure
      ensures old(Lawful()) && RemovalsLegal(old(View()), files) ==> Lawful()
    {
      for i := 0 to |files|
        invariant View() == WithoutAll(old(View()), files[..i])
        invariant Valid() && old(log) <= log && (forall i :: |old(log)| <= i < |log| ==> log[i].Remove? && log[i].f in files)
        invariant OnlyRemoved(old(View()), View(), files)
        invariant old(Lawful()) && RemovalsLegal(old(View()), files) ==> Lawful()
      {
        WithoutOneMore(old(View()), View(), files, i);
        if Has(View(), files[i]) {
          var _ :- Change(Remove(files[i]));
        }
      }
      assert files[..|files|] == files;
      r := DONE;
    }

    method ClearPendingPairing() returns (r: Status)
      requires Valid()
      modifies this
      ensures Valid() && old(log) <= log
      ensures vault == old(vault) && record == old(record)
      ensures txn == old(txn) || txn.None?
      ensures pendingVault == old(pendingVault) || pendingVault.None?
      ensures pendingRecord == old(pendingRecord) || pendingRecord.None?
      ensures r.Ok? ==> View() == ClearedPending(old(View()))
      ensures r.Ok? ==> txn.None? && pendingVault.None? && pendingRecord.None? && rollbackVault.None? && rollbackRecord.None?
      ensures r.Err? ==> faulty && r.error == StorageFailure
      ensures forall i :: |old(log)| <= i < |log| ==> log[i].Remove?
      ensures old(Lawful()) && (old(txn).None? || InPhase(old(View()), FullyActivated)) ==> Lawful()
    {
      var files := [PendingRecordFile, PendingVaultFile, TxnFile, RollbackRecordFile, RollbackVaultFile];
      ClearingIsLegal(View());
      r := RemoveAll(files);
    }

    method ClearRollback() returns (r: Status)
      requires Valid()
      modifies this
      ensures Valid() && old(log) <= log
      ensures View() == old(View()).(rollbackVault := rollbackVault, rollbackRecord := rollbackRecord)
      ensures r.Ok? ==> View() == old(View()).(rollbackVault := None, rollbackRecord := None)
      ensures r.Err? ==> faulty && r.error == StorageFailure
      ensures forall i :: |old(log)| <= i < |log| ==> log[i] == Remove(RollbackRecordFile) || log[i] == Remove(RollbackVaultFile)
      ensures old(Lawful()) && old(txn).None? ==> Lawful()
    {
      ClearingRollbackIsLegal(View());
      r := RemoveAll([RollbackRecordFile, RollbackVaultFile]);
    }

    /** Captures rollback copies of the live files, then records the transaction. */
    method WriteTransactionPrepared(g: Gen) returns (r: Status)
      requires Valid()
      modifies this
      ensures Valid() && old(log) <= log
      ensures vault == old(vault) && record == old(record)
      ensures pendingVault == old(pendingVault) && pendingRecord == old(pendingRecord)
      ensures txn == old(txn) || View() == PreparedFor(old(View()), g)
      ensures old(txn).Some? ==> r == Err(Refused) && View() == old(View())
      ensures r.Ok? ==> View() == PreparedFor(old(View()), g)
      ensures r.Ok? ==> rollbackVault == vault && rollbackRecord == record
                        && txn == Some(Txn(Prepared, g, vault.Some?, record.Some?))
      ensures !faulty && old(txn).None? ==> r.Ok?
      ensures forall i :: |old(log)| <= i < |log| ==> Preparing(log[i], g)
      ensures old(Lawful()) ==> Lawful()
    {
      if txn.Some? {
        return Err(Refused);
      }
      var hadVault, hadRecord := vault.Some?, record.Some?;
      var _ :- CaptureRollback();
      r := Change(WriteTxn(Txn(Prepared, g, hadVault, hadRecord)));
    }

    /** Fresh rollback copies of whatever is live. */
    method CaptureRollback() returns (r: Status)
      requires Valid()
      modifies this
      ensures Valid() && old(log) <= log
      ensures View() == old(View()).(rollbackVault := rollbackVault, rollbackRecord := rollbackRecord)
      ensures r.Ok? ==> rollbackVault == vault && rollbackRecord == record
      ensures r.Err? ==> faulty && r.error == StorageFailure
      ensures forall i, g :: |old(log)| <= i < |log| ==> Preparing(log[i], g)
      ensures old(Lawful()) && old(txn).None? ==> Lawful()
    {
      var _ :- ClearRollback();
      if vault.Some? {
        var _ :- Change(CopyVaultToRollback);
      }
      if record.Some? {
        var _ :- Change(CopyRecordToRollback);
      }
      r := DONE;
    }

    method AdvanceTransaction(phase: Phase, g: Gen) returns (r: Status)
      requires Valid()
      modifies this
      ensures Valid() && old(log) <= log
      ensures View() == old(View()) || (old(txn).Some? && View() == Advanced(old(View()), phase))
      ensures r.Ok? ==> old(txn).Some? && old(txn).value.gen == g && View() == Advanced(old(View()), phase)
      ensures !faulty && old(txn).Some? && old(txn).value.gen == g ==> r.Ok?
      ensures r.Err? && old(txn).Some? && old(txn).value.gen == g ==> r.error == StorageFailure
      ensures forall i :: |old(log)| <= i < |log| ==> old(txn).Some? && log[i] == WriteTxn(old(txn).value.(phase := phase))
      ensures old(Lawful()) && old(txn).Some? && Legal(old(View()), WriteTxn(old(txn).value.(phase := phase))) ==> Lawful()
    {
      if txn.None? || txn.value.gen != g {
        return Err(Refused);
      }
      r := Change(WriteTxn(txn.value.(phase := phase)));
    }

    /** Renames the pending vault, then the pending record, over the live ones. */
    method PromotePendingPairing() returns (r: Status)
      requires Valid()
      modifies this
      ensures Valid() && old(log) <= log
      ensures txn == old(txn)
      ensures View() == old(View()) || View() == PromotedVault(old(View())) || View() == Promoted(old(View()))
      ensures r.Ok? ==> Promotable(old(View())) && View() == Promoted(old(View()))
      ensures r.Err? ==> (faulty && r.error == StorageFailure) || (!Promotable(old(View())) && r.error == Refused)
      ensures forall i :: |old(log)| <= i < |log| ==> OnItsOwn(log[i])
      ensures old(Lawful()) ==> Lawful()
    {
      if txn.None? || txn.value.phase != PhoneCommitted {
        return Err(Refused);
      }
      if (txn.value.hadVault && rollbackVault.None?) || (txn.value.hadRecord && rollbackRecord.None?) {
        return Err(Refused);
      }
      var _ :- MoveVault();
      r := MoveRecord();
    }

    method MoveVault() returns (r: Status)
      requires Valid()
      modifies this
      ensures Valid() && old(log) <= log
      ensures View() == old(View()) || View() == PromotedVault(old(View()))
      ensures r.Ok? ==> View() == PromotedVault(old(View())) && vault.Some?
      ensures r.Err? ==> (faulty && r.error == StorageFailure) || (old(pendingVault).None? && old(vault).None? && r.error == Refused)
      ensures forall i :: |old(log)| <= i < |log| ==> log[i].PromoteVault?
      ensures old(Lawful()) && InPhase(old(View()), PhoneCommitted) && RollbackCaptured(old(View()), old(txn).value) ==> Lawful()
    {
      if pendingVault.Some? {
        r := Change(PromoteVault);
      } else {
        r := if vault.None? then Err(Refused) else DONE;
      }
    }

    method MoveRecord() returns (r: Status)
      requires Valid()
      modifies this
      ensures Valid() && old(log) <= log
      ensures View() == old(View()).(record := record, pendingRecord := pendingRecord)
      ensures (record, pendingRecord) in {old((record, pendingRecord)), (PendingElse(old(pendingRecord), old(record)), None)}
      ensures r.Ok? ==> record == PendingElse(old(pendingRecord), old(record)) && pendingRecord.None? && record.Some?
      ensures r.Err? ==> (faulty && r.error == StorageFailure) || (old(pendingRecord).None? && old(record).None? && r.error == Refused)
      ensures forall i :: |old(log)| <= i < |log| ==> log[i].PromoteRecord?
      ensures old(Lawful()) && old(pendingVault).None? && InPhase(old(View()), PhoneCommitted) ==>
                (RollbackCaptured(old(View()), old(txn).value) ==> Lawful())
    {
      if pendingRecord.Some? {
        r := Change(PromoteRecord);
      } else {
        r := if record.None? then Err(Refused) else DONE;
      }
    }

    /** What the desktop does on its own after a restart, without the phone. */
    method RecoverTransaction() returns (r: Status)
      requires Valid()
      modifies this
      ensures Valid() && old(log) <= log
      ensures r.Ok? ==> Recoverable(old(View())) && View() == AfterRecovery(old(View()))
      ensures !faulty && Recoverable(old(View())) ==> r.Ok?
      ensures r.Err? && Recoverable(old(View())) ==> r.error == StorageFailure
      ensures InPhase(old(View()), PhoneCommitted) ==>
                || View() in {old(View()), PromotedVault(old(View())), Promoted(old(View()))}
                || View() == Advanced(Promoted(old(View())), LocallyActivated)
      ensures InPhase(old(View()), Prepared) || InPhase(old(View()), LocallyActivated) ==> View() == old(View())
      ensures old(txn).None? || InPhase(old(View()), FullyActivated) ==>
                vault == old(vault) && record == old(record) && (txn == old(txn) || txn.None?)
      ensures forall i :: |old(log)| <= i < |log| ==> OnItsOwn(log[i])
      ensures old(Lawful()) ==> Lawful()
    {
      if txn.None? {
        if pendingRecord.Some? || pendingVault.Some? || rollbackRecord.Some? || rollbackVault.Some? {
          r := ClearPendingPairing();
        } else {
          r := DONE;
        }
        return;
      }
      match txn.value.phase {
        case Prepared => r := DONE;
        case LocallyActivated => r := DONE;
        case PhoneCommitted =>
          var g := txn.value.gen;
          var _ :- PromotePendingPairing();
          r := AdvanceTransaction(LocallyActivated, g);
        case FullyActivated =>
          r := ClearPendingPairing();
      }
    }
  }

  lemma {:induction false} LogExtended(origin: Disk, log: seq<Write>, w: Write)
    ensures ApplyAll(origin, log + [w]) == Apply(ApplyAll(origin, log), w)
    ensures DesktopDisk.Lawful(origin, log) && Legal(ApplyAll(origin, log), w) ==> DesktopDisk.Lawful(origin, log + [w])
  {
    assert (log + [w])[..|log|] == log;
  }

  /** d without the files of fs. */
  function WithoutAll(d: Disk, fs: seq<File>): Disk {
    if fs == [] then d else Without(WithoutAll(d, fs[..|fs| - 1]), fs[|fs| - 1])
  }

  /** e is d without some of the files of fs. */
  predicate OnlyRemoved(d: Disk, e: Disk, fs: seq<File>) {
    && e.vault == d.vault && e.record == d.record
    && (e.txn == d.txn || (e.txn.None? && TxnFile in fs))
    && (e.pendingVault == d.pendingVault || (e.pendingVault.None? && PendingVaultFile in fs))
    && (e.pendingRecord == d.pendingRecord || (e.pendingRecord.None? && PendingRecordFile in fs))
  }

  lemma {:induction false} WithoutOneMore(d: Disk, e: Disk, fs: seq<File>, i: nat)
    requires i < |fs| && e == WithoutAll(d, fs[..i]) && OnlyRemoved(d, e, fs)
    ensures WithoutAll(d, fs[..i + 1]) == Without(e, fs[i]) && OnlyRemoved(d, Without(e, fs[i]), fs)
    ensures !Has(e, fs[i]) ==> Without(e, fs[i]) == e
  {
    assert fs[..i + 1][..i] == fs[..i];
  }

  predicate RemovalsLegal(d: Disk, fs: seq<File>) {
    forall i :: 0 <= i < |fs| ==> Legal(WithoutAll(d, fs[..i]), Remove(fs[i]))
  }

  lemma ClearingIsLegal(d: Disk)
    ensures var fs := [PendingRecordFile, PendingVaultFile, TxnFile, RollbackRecordFile, RollbackVaultFile];
            && WithoutAll(d, fs) == ClearedPending(d)
            && (d.txn.None? || InPhase(d, FullyActivated) ==> RemovalsLegal(d, fs))
  {
    var fs := [PendingRecordFile, PendingVaultFile, TxnFile, RollbackRecordFile, RollbackVaultFile];
    assert fs[..0] == [] && fs[..1][..0] == [] && fs[..2][..1] == fs[..1];
    assert fs[..3][..2] == fs[..2] && fs[..4][..3] == fs[..3] && fs[..4] == fs[..|fs| - 1];
    assert WithoutAll(d, fs[..0]) == d;
    assert WithoutAll(d, fs[..1]) == d.(pendingRecord := None);
    assert WithoutAll(d, fs[..2]) == d.(pendingRecord := None, pendingVault := None);
    assert WithoutAll(d, fs[..3]) == d.(pendingRecord := None, pendingVault := None, txn := None);
    assert WithoutAll(d, fs[..4]) == ClearedPending(d).(rollbackVault := d.rollbackVault);
    if d.txn.None? || InPhase(d, FullyActivated) {
      forall i | 0 <= i < |fs| ensures Legal(WithoutAll(d, fs[..i]), Remove(fs[i])) {
        match i {
          case 0 =>
          case 1 =>
          case 2 =>
          case 3 =>
          case 4 =>
        }
      }
    }
  }

  lemma ClearingRollbackIsLegal(d: Disk)
    ensures var fs := [RollbackRecordFile, RollbackVaultFile];
            && WithoutAll(d, fs) == d.(rollbackVault := None, rollbackRecord := None)
            && (d.txn.None? ==> RemovalsLegal(d, fs))
  {
    var fs := [RollbackRecordFile, RollbackVaultFile];
    assert fs[..0] == [] && fs[..1][..0] == [] && fs[..1] == fs[..|fs| - 1];
    assert WithoutAll(d, fs[..1]) == d.(rollbackRecord := None);
  }

  /** The vault renamed, the record not yet. */
  function PromotedVault(d: Disk): Disk {
    d.(vault := PendingElse(d.pendingVault, d.vault), pendingVault := None)
  }
}
