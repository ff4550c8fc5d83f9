/**
 One desktop and one phone replacing the phone-held share. Each durable change is its own step, so
 every state is a possible crash; only what a process keeps in memory has a notion of progress.
 */
module PairingProtocol {
  import opened PairingTypes
  import P = PhoneStore
  import D = DesktopDisk

  /** The iroh identities of the one desktop and the one phone. */
  const DESKTOP: Node := 0
  const PHONE: Node := 1

  datatype Message =
    | Prepared(g: Gen)
    | Ready(g: Gen)
    | Commit(g: Gen)
    | CommitAck(g: Gen)
    | Activate(g: Gen)
    | ActivateAck(g: Gen)

  /** How far a setup on the phone has come. Dead: its task ended, or the app restarted. */
  datatype Stage = Preparing | Signed | Dialled | Aborting | Dead

  /** An unlocked vault in the memory of the desktop process. */
  datatype Session = Session(
    gen: Gen,
    local: LocalSecret,
    share: Share,
    key: VaultKey,
    salt: Salt,
    plaintext: Plaintext)

  datatype Progress = Collecting | Verified | Started | Failing

  /** A pairing in progress in the desktop process, with the vault resealed under the new share. */
  datatype Exchange = Exchange(gen: Gen, blob: Blob, progress: Progress)

  /** approved: the command in progress has the phone's approval, if only the one that unlocked the vault for it. */
  datatype Process =
    | Down
    | Idle(session: Session, approved: bool)
    | Pairing(from: Option<Session>, exchange: Exchange)

  datatype Sys = Sys(
    disk: D.Disk,
    process: Process,
    phone: P.Store,
    /** The generation whose secrets the phone app holds in memory. */
    memory: Option<Gen>,
    setups: map<Gen, Stage>,
    /** PairingHello messages on their streams; a stream delivers its bytes once. */
    hellos: set<Gen>,
    /** Every other message ever sent: it may be lost, delayed or delivered again. */
    net: set<Message>,
    // what an observer remembers
    password: Password,
    minted: map<Gen, P.Bundle>,
    wasCommitted: set<Gen>,
    wasActive: set<Gen>)

  datatype Event =
    | SetupStarts(g: Gen)
    | PhoneWrites(op: P.Op, w: P.Write)
    | SetupSigns(g: Gen)
    | SetupDials(g: Gen)
    | SetupFails(g: Gen)
    | SetupEnds(g: Gen)
    | PhoneSendsReady(g: Gen)
    | PhoneAcksCommit(g: Gen)
    | PhoneAcksActivate(g: Gen)
    | PhoneUnlocks
    | PhoneLocks
    | PhoneRestarts
    | DesktopInits(g: Gen, password: Password, salt: Salt)
    | DesktopPairs(g: Gen)
    | DesktopWrites(d: D.Write)
    | DesktopSends(m: Message)
    | DesktopVerifies
    | DesktopFails
    | DesktopReturns
    | DesktopFinishes
    | DesktopStops
    | DesktopUnlocks(password: Password)
    | DesktopGetsApproval
    | DesktopSaves(plaintext: Plaintext, reported: bool)
    | DesktopRotates(password: Password, salt: Salt, reported: bool)
    | CommandEnds

  const START := Sys(D.BLANK, Down, P.EMPTY, None, map[], {}, {}, "", map[], {}, {})

  // ----- the phone's steps

  /** Who may be running an operation: a setup of its own, a request from the desktop, or anyone for checks. */
  predicate Authorized(s: Sys, op: P.Op) {
    match op
    case Begin(g) => g in s.setups && s.setups[g] == Preparing
    case Generate(g) => g in s.setups && s.setups[g] == Preparing
    case Publish(b) => b.id in s.setups && s.setups[b.id] == Preparing
    case Abort(g) => g in s.setups && s.setups[g] == Aborting
    case Commit(g) => Commit(g) in s.net
    case Activate(g) => Activate(g) in s.net
    case Check => true
  }

  /** A setup stores its bundle once, with a share no earlier generation had. */
  predicate Fresh(s: Sys, b: P.Bundle) {
    b.id !in s.minted && forall g :: g in s.minted ==> s.minted[g].share != b.share
  }

  function Elements(o: Option<Gen>): set<Gen> {
    if o.Some? then {o.value} else {}
  }

  function AfterPhoneWrite(s: Sys, w: P.Write): Sys {
    var p := P.Apply(s.phone, w);
    s.(phone := p,
       minted := if w.PutBundle? then s.minted[w.b.id := w.b] else s.minted,
       wasCommitted := s.wasCommitted + Elements(p.committed),
       wasActive := s.wasActive + Elements(p.active))
  }

  predicate PhoneStep(s: Sys, e: Event, t: Sys) {
    match e
    case SetupStarts(g) =>
      g !in s.setups && t == s.(setups := s.setups[g := Preparing])
    case PhoneWrites(op, w) =>
      && P.Legal(op, s.phone, w) && Authorized(s, op) && (w.PutBundle? ==> Fresh(s, w.b))
      && t == AfterPhoneWrite(s, w)
    case SetupSigns(g) =>
      && g in s.setups && s.setups[g] == Preparing
      && s.phone.pending == Some(g) && g in s.phone.bundles && g in s.phone.keys
      && t == s.(setups := s.setups[g := Signed])
    case SetupDials(g) =>
      && g in s.setups && s.setups[g] == Signed
      && t == s.(setups := s.setups[g := Dialled],
                 hellos := if g in s.minted && s.minted[g].cli == DESKTOP then s.hellos + {g} else s.hellos)
    case SetupFails(g) =>
      && g in s.setups && (s.setups[g] == Preparing || s.setups[g] == Signed)
      && t == s.(setups := s.setups[g := Aborting])
    case SetupEnds(g) =>
      g in s.setups && t == s.(setups := s.setups[g := Dead])
    case PhoneSendsReady(g) =>
      && g in s.setups && s.setups[g] == Dialled && Prepared(g) in s.net
      && t == s.(net := s.net + {Ready(g)})
    case PhoneAcksCommit(g) =>
      && Commit(g) in s.net && (g in s.wasCommitted || g in s.wasActive)
      && t == s.(net := s.net + {CommitAck(g)})
    case PhoneAcksActivate(g) =>
      && Activate(g) in s.net && g in s.wasActive
      && t == s.(net := s.net + {ActivateAck(g)})
    case PhoneUnlocks =>
      && s.phone.active.Some? && s.phone.active.value in s.phone.keys
      && t == s.(memory := s.phone.active)
    case PhoneLocks =>
      t == s.(memory := None)
    case PhoneRestarts =>
      t == s.(memory := None, setups := map g | g in s.setups :: Dead)
    case _ => false
  }

  // ----- the desktop's steps

  /** The phone signs for a generation that its app holds in memory and whose approval key is still in its key store. */
  predicate Signs(s: Sys, g: Gen) {
    s.memory == Some(g) && g in s.phone.keys
  }

  /** A command goes on with the phone's approval, whatever the phone has done since. */
  predicate Approved(s: Sys) {
    s.process.Idle? && s.process.approved
  }

  function Seal(local: LocalSecret, share: Share, salt: Salt, plaintext: Plaintext): Blob {
    Blob(salt, VaultKey(local, share), plaintext)
  }

  predicate InProgress(s: Sys, progress: Progress) {
    s.process.Pairing? && s.process.exchange.progress == progress
  }

  /** When the running program reaches a write that the files alone would allow. */
  predicate Reaches(s: Sys, w: D.Write) {
    match w
    case WriteVault(_) => false
    case WritePendingVault(b) => InProgress(s, Collecting) && b == s.process.exchange.blob
    case WritePendingRecord(r) => InProgress(s, Collecting) && r == D.Record(s.process.exchange.gen, PHONE)
    case CopyVaultToRollback => InProgress(s, Verified)
    case CopyRecordToRollback => InProgress(s, Verified)
    case WriteTxn(t) =>
      (match t.phase
       case Prepared => InProgress(s, Verified) && t.gen == s.process.exchange.gen
       case PhoneCommitted => CommitAck(t.gen) in s.net
       case LocallyActivated => true
       case FullyActivated => ActivateAck(t.gen) in s.net)
    case PromoteVault => true
    case PromoteRecord => true
    case Remove(f) =>
      || s.disk.txn.Some? || s.process.Down? || InProgress(s, Failing) || InProgress(s, Started)
      || ((f.RollbackRecordFile? || f.RollbackVaultFile?) && InProgress(s, Verified))
  }

  function WithProgress(p: Process, progress: Progress): Process
    requires p.Pairing?
  {
    p.(exchange := p.exchange.(progress := progress))
  }

  function Adopt(session: Session, x: Exchange): Session {
    session.(gen := x.gen, share := x.blob.key.share, key := x.blob.key)
  }

  predicate DesktopStep(s: Sys, e: Event, t: Sys) {
    match e
    case DesktopInits(g, password, salt) =>
      && s.process.Down? && D.Recovered(s.disk) && s.disk.vault.None?
      && g in s.hellos && g in s.minted
      && t == s.(hellos := s.hellos - {g}, password := password,
                 process := Pairing(None, Exchange(g, Seal(LocalSecret(password, salt), s.minted[g].share, salt, []), Collecting)))
    case DesktopPairs(g) =>
      && Approved(s) && s.disk.txn.None? && s.disk.pendingRecord.None? && s.disk.record.Some?
      && g in s.hellos && g in s.minted
      && var from := s.process.session;
         t == s.(hellos := s.hellos - {g},
                 process := Pairing(Some(from), Exchange(g, Seal(from.local, s.minted[g].share, from.salt, from.plaintext), Collecting)))
    case DesktopWrites(w) =>
      && D.Legal(s.disk, w) && Reaches(s, w)
      && t == s.(disk := D.Apply(s.disk, w),
                 process := if w.WriteTxn? && w.t.phase == D.Prepared && s.process.Pairing? then WithProgress(s.process, Started) else s.process)
    case DesktopSends(m) =>
      && (match m
          case Prepared(g) =>
            && InProgress(s, Collecting) && s.process.exchange.gen == g
            && s.disk.pendingVault.Some? && s.disk.pendingRecord.Some?
          case Commit(g) => D.InPhase(s.disk, D.Prepared) && s.disk.txn.value.gen == g
          case Activate(g) => D.InPhase(s.disk, D.LocallyActivated) && s.disk.txn.value.gen == g
          case _ => false)
      && t == s.(net := s.net + {m})
    case DesktopVerifies =>
      && InProgress(s, Collecting) && Ready(s.process.exchange.gen) in s.net
      && s.disk.pendingVault == Some(s.process.exchange.blob)
      && s.disk.pendingRecord == Some(D.Record(s.process.exchange.gen, PHONE))
      && t == s.(process := WithProgress(s.process, Verified))
    case DesktopFails =>
      && s.process.Pairing? && s.disk.txn.None?
      && t == s.(process := WithProgress(s.process, Failing))
    case DesktopReturns =>
      && InProgress(s, Failing) && s.disk.txn.None?
      && t == s.(process := if s.process.from.Some? then Idle(s.process.from.value, false) else Down)
    case DesktopFinishes =>
      && InProgress(s, Started) && D.Recovered(s.disk)
      && t == s.(process := if s.process.from.Some? then Idle(Adopt(s.process.from.value, s.process.exchange), false) else Down)
    case DesktopStops =>
      t == s.(process := Down)
    case DesktopUnlocks(password) =>
      && s.process.Down? && D.Recovered(s.disk) && s.disk.vault.Some? && s.disk.record.Some?
      && s.disk.record.value.gen in s.minted
      && var v, g := s.disk.vault.value, s.disk.record.value.gen;
         var share := s.minted[g].share;
         var contents := Unseal(v, password, share);
         var local := LocalSecret(password, v.salt);
         contents.Some? && t == s.(process := Idle(Session(g, local, share, VaultKey(local, share), v.salt, contents.value), true))
    case DesktopGetsApproval =>
      && s.process.Idle? && Signs(s, s.process.session.gen)
      && t == s.(process := s.process.(approved := true))
    case DesktopSaves(plaintext, reported) =>
      && Approved(s)
      && var from := s.process.session;
         t == s.(disk := s.disk.(vault := Some(Blob(from.salt, from.key, plaintext))),
                 process := if reported then s.process.(session := from.(plaintext := plaintext)) else s.process)
    case DesktopRotates(password, salt, reported) =>
      && Approved(s)
      && var from := s.process.session;
         var local := LocalSecret(password, salt);
         var key := VaultKey(local, from.share);
         t == s.(disk := s.disk.(vault := Some(Blob(salt, key, from.plaintext))), password := password,
                 process := if reported then s.process.(session := from.(local := local, key := key, salt := salt)) else Down)
    case CommandEnds =>
      s.process.Idle? && t == s.(process := s.process.(approved := false))
    case _ => false
  }

  predicate Step(s: Sys, e: Event, t: Sys) {
    PhoneStep(s, e, t) || DesktopStep(s, e, t)
  }

  /** A run from the first start of both devices. */
  predicate Run(states: seq<Sys>, events: seq<Event>) {
    && |states| == |events| + 1 && states[0] == START
    && forall i :: 0 <= i < |events| ==> Step(states[i], events[i], states[i + 1])
  }
}
