/** The desktop's durable files around a pairing transaction, and the one write at a time made to them. */
module DesktopDisk {
  import opened PairingTypes

  datatype Phase = Prepared | PhoneCommitted | LocallyActivated | FullyActivated

  /** pairing_txn.json */
  datatype Txn = Txn(phase: Phase, gen: Gen, hadVault: bool, hadRecord: bool)

  /** pairing.json: which generation the desktop is paired with, and where its phone is. */
  datatype Record = Record(gen: Gen, phone: Node)

  datatype Disk = Disk(
    vault: Option<Blob>,
    record: Option<Record>,
    pendingVault: Option<Blob>,
    pendingRecord: Option<Record>,
    rollbackVault: Option<Blob>,
    rollbackRecord: Option<Record>,
    txn: Option<Txn>)

  const BLANK := Disk(None, None, None, None, None, None, None)

  /** The files that clearing a transaction removes. */
  datatype File = PendingRecordFile | PendingVaultFile | TxnFile | RollbackRecordFile | RollbackVaultFile

  /** One durable change: a private-file write, an atomic rename or a removal. */
  datatype Write =
    | WriteVault(b: Blob)
    | WritePendingVault(b: Blob)
    | WritePendingRecord(r: Record)
    | CopyVaultToRollback
    | CopyRecordToRollback
    | WriteTxn(t: Txn)
    | PromoteVault
    | PromoteRecord
    | Remove(f: File)

  function Apply(d: Disk, w: Write): Disk {
    match w
    case WriteVault(b) => d.(vault := Some(b))
    case WritePendingVault(b) => d.(pendingVault := Some(b))
    case WritePendingRecord(r) => d.(pendingRecord := Some(r))
    case CopyVaultToRollback => d.(rollbackVault := d.vault)
    case CopyRecordToRollback => d.(rollbackRecord := d.record)
    case WriteTxn(t) => d.(txn := Some(t))
    case PromoteVault => d.(vault := d.pendingVault, pendingVault := None)
    case PromoteRecord => d.(record := d.pendingRecord, pendingRecord := None)
    case Remove(f) => Without(d, f)
  }

  function Without(d: Disk, f: File): Disk {
    match f
    case PendingRecordFile => d.(pendingRecord := None)
    case PendingVaultFile => d.(pendingVault := None)
    case TxnFile => d.(txn := None)
    case RollbackRecordFile => d.(rollbackRecord := None)
    case RollbackVaultFile => d.(rollbackVault := None)
  }

  predicate Has(d: Disk, f: File) {
    match f
    case PendingRecordFile => d.pendingRecord.Some?
    case PendingVaultFile => d.pendingVault.Some?
    case TxnFile => d.txn.Some?
    case RollbackRecordFile => d.rollbackRecord.Some?
    case RollbackVaultFile => d.rollbackVault.Some?
  }

  predicate InPhase(d: Disk, phase: Phase) {
    d.txn.Some? && d.txn.value.phase == phase
  }

  /** Nothing of a transaction is left: what a successful recovery without a transaction file leaves. */
  predicate Recovered(d: Disk) {
    && d.txn.None? && d.pendingRecord.None? && d.pendingVault.None?
    && d.rollbackRecord.None? && d.rollbackVault.None?
  }

  predicate RollbackCaptured(d: Disk, t: Txn) {
    && (t.hadVault ==> d.rollbackVault.Some?)
    && (t.hadRecord ==> d.rollbackRecord.Some?)
  }

  /** The write w is one the desktop makes with these files on disk. */
  predicate Legal(d: Disk, w: Write) {
    match w
    case WriteVault(_) => d.txn.None?
    case WritePendingVault(_) => d.txn.None?
    case WritePendingRecord(_) => d.txn.None?
    case CopyVaultToRollback => d.txn.None? && d.vault.Some?
    case CopyRecordToRollback => d.txn.None? && d.record.Some?
    case WriteTxn(t) =>
      if d.txn.None? then
        && t.phase == Prepared
        && t.hadVault == d.vault.Some? && t.hadRecord == d.record.Some?
        && (t.hadVault ==> d.rollbackVault == d.vault) && (t.hadRecord ==> d.rollbackRecord == d.record)
      else
        && t == d.txn.value.(phase := t.phase)
        && (match d.txn.value.phase
            case Prepared => t.phase == PhoneCommitted
            case PhoneCommitted => t.phase == LocallyActivated && d.pendingVault.None? && d.pendingRecord.None?
            case LocallyActivated => t.phase == FullyActivated
            case FullyActivated => false)
    case PromoteVault =>
      InPhase(d, PhoneCommitted) && d.pendingVault.Some? && RollbackCaptured(d, d.txn.value)
    case PromoteRecord =>
      InPhase(d, PhoneCommitted) && d.pendingRecord.Some? && d.pendingVault.None? && RollbackCaptured(d, d.txn.value)
    case Remove(f) =>
      match f
      case PendingRecordFile => d.txn.None? || InPhase(d, FullyActivated)
      case PendingVaultFile => d.txn.None? || InPhase(d, FullyActivated)
      case TxnFile => d.txn.None? || (InPhase(d, FullyActivated) && d.pendingRecord.None? && d.pendingVault.None?)
      case RollbackRecordFile => d.txn.None?
      case RollbackVaultFile => d.txn.None?
  }

  function ApplyAll(d: Disk, ws: seq<Write>): Disk {
    if ws == [] then d else Apply(ApplyAll(d, ws[..|ws| - 1]), ws[|ws| - 1])
  }

  /** Every write of ws is one the desktop makes with the files it finds. */
  predicate Lawful(d: Disk, ws: seq<Write>) {
    ws == [] ||
    var before := ws[..|ws| - 1];
    Lawful(d, before) && Legal(ApplyAll(d, before), ws[|ws| - 1])
  }

  /** What the desktop writes on its own after a restart: promotion, its mark, and removals. */
  predicate OnItsOwn(w: Write) {
    w.Remove? || w.PromoteVault? || w.PromoteRecord? || (w.WriteTxn? && w.t.phase == LocallyActivated)
  }

  /** What it writes to begin the transaction for g. */
  predicate Preparing(w: Write, g: Gen) {
    || w == Remove(RollbackRecordFile) || w == Remove(RollbackVaultFile)
    || w.CopyVaultToRollback? || w.CopyRecordToRollback?
    || (w.WriteTxn? && w.t.phase == Prepared && w.t.gen == g)
  }

  // ----- what each operation leaves behind when storage does not fail

  function ClearedPending(d: Disk): Disk {
    Disk(d.vault, d.record, None, None, None, None, None)
  }

  /** Copies of the live files beside a transaction in its first phase. */
  function PreparedFor(d: Disk, g: Gen): Disk {
    d.(rollbackVault := d.vault, rollbackRecord := d.record,
       txn := Some(Txn(Prepared, g, d.vault.Some?, d.record.Some?)))
  }

  predicate Promotable(d: Disk) {
    && InPhase(d, PhoneCommitted) && RollbackCaptured(d, d.txn.value)
    && (d.pendingVault.Some? || d.vault.Some?)
    && (d.pendingRecord.Some? || d.record.Some?)
  }

  function PendingElse<T>(pending: Option<T>, live: Option<T>): Option<T> {
    if pending.Some? then pending else live
  }

  function Promoted(d: Disk): Disk {
    d.(vault := PendingElse(d.pendingVault, d.vault), pendingVault := None,
       record := PendingElse(d.pendingRecord, d.record), pendingRecord := None)
  }

  function Advanced(d: Disk, phase: Phase): Disk
    requires d.txn.Some?
  {
    d.(txn := Some(d.txn.value.(phase := phase)))
  }

  predicate Recoverable(d: Disk) {
    d.txn.Some? && d.txn.value.phase == PhoneCommitted ==> Promotable(d)
  }

  function AfterRecovery(d: Disk): Disk {
    match d.txn
    case None => ClearedPending(d)
    case Some(t) =>
      match t.phase
      case Prepared => d
      case LocallyActivated => d
      case PhoneCommitted => Advanced(Promoted(d), LocallyActivated)
      case FullyActivated => ClearedPending(d)
  }

  /** What parsing the pairing record came to. */
  datatype Parsed = Readable | BadPhoneId | BadRecord

  datatype PairingStatus = Ready | Pending | InvalidPhoneId | InvalidPairing | MissingPhoneId
}
