/** Storage operations, as their classes log them, are runs of the two devices, wherever they are cut. */
module PairingRuns {
  import opened PairingTypes
  import opened PairingProtocol
  import opened PairingInvariant
  import opened PairingTheorems
  import P = PhoneStore
  import PH = PhoneHistory
  import D = DesktopDisk

  /** A state that some careful run reaches. */
  ghost predicate Reached(s: Sys) {
    exists states, events :: CarefulRun(states, events, |events|) && states[|events|] == s
  }

  lemma {:induction false} ReachedInv(s: Sys)
    requires Reached(s)
    ensures Inv(s)
  {
    var states, events :| CarefulRun(states, events, |events|) && states[|events|] == s;
    RunKeepsInv(states, events, |events|);
  }

  lemma {:induction false} ReachedHistory(s: Sys)
    requires Reached(s)
    ensures s.phone.committed.Some? ==> s.phone.committed.value in s.wasCommitted
    ensures s.phone.active.Some? ==> s.phone.active.value in s.wasActive
  {
    ReachedInv(s);
    assert HistoryOk(s);
  }

  lemma {:induction false} Then(s: Sys, e: Event, t: Sys)
    requires Reached(s) && Step(s, e, t) && Careful(s, e)
    ensures Reached(t)
  {
    var states, events :| CarefulRun(states, events, |events|) && states[|events|] == s;
    var states', events' := states + [t], events + [e];
    forall i | 0 <= i < |events'| ensures Step(states'[i], events'[i], states'[i + 1]) && Careful(states'[i], events'[i]) {
      if i < |events| {
        assert Step(states[i], events[i], states[i + 1]);
      }
    }
    assert CarefulRun(states', events', |events'|) && states'[|events'|] == t;
  }

  // ----- the phone

  /** A setup stores one bundle, with a share no earlier generation had. */
  predicate StoresFreshOnce(s: Sys, ws: seq<PH.Stamped>) {
    && (forall i, j :: 0 <= i < |ws| && 0 <= j < |ws| && ws[i].write.PutBundle? && ws[j].write.PutBundle? ==> i == j)
    && (forall i :: 0 <= i < |ws| && ws[i].write.PutBundle? ==> Fresh(s, ws[i].write.b))
  }

  /** Every cut of authorized phone operations. */
  lemma {:induction false} PhoneOperationsAreARun(s: Sys, ws: seq<PH.Stamped>) returns (t: Sys)
    requires Reached(s) && StoresFreshOnce(s, ws)
    requires PH.Lawful(s.phone, ws) && forall i :: 0 <= i < |ws| ==> Authorized(s, ws[i].op)
    ensures Reached(t) && t.phone == PH.ApplyAll(s.phone, ws)
    ensures t == s.(phone := t.phone, minted := t.minted, wasCommitted := t.wasCommitted, wasActive := t.wasActive)
    ensures (forall i :: 0 <= i < |ws| ==> !ws[i].write.PutBundle?) ==> t.minted == s.minted
  {
    t := s;
    if ws != [] {
      var n := |ws| - 1;
      var u := PhoneOperationsAreARun(s, ws[..n]);
      assert ws[n].write.PutBundle? ==> u.minted == s.minted && Fresh(s, ws[n].write.b);
      assert Authorized(s, ws[n].op) == Authorized(u, ws[n].op);
      t := AfterPhoneWrite(u, ws[n].write);
      Then(u, PhoneWrites(ws[n].op, ws[n].write), t);
    }
  }

  // ----- the desktop

  /** The process is one that recovers, drives a transaction or cleans up after a pairing that failed. */
  predicate Drives(q: Process) {
    q.Down? || (q.Pairing? && (q.exchange.progress == Started || q.exchange.progress == Failing))
  }

  /** Every cut of what the desktop does on its own: promotion, its mark and removals. */
  lemma {:induction false} OwnWritesAreARun(s: Sys, ws: seq<D.Write>) returns (t: Sys)
    requires Reached(s) && Drives(s.process)
    requires D.Lawful(s.disk, ws) && forall i :: 0 <= i < |ws| ==> D.OnItsOwn(ws[i])
    ensures Reached(t) && t == s.(disk := D.ApplyAll(s.disk, ws))
  {
    t := s;
    if ws != [] {
      var n := |ws| - 1;
      var u := OwnWritesAreARun(s, ws[..n]);
      t := u.(disk := D.Apply(u.disk, ws[n]));
      assert Reaches(u, ws[n]);
      Then(u, DesktopWrites(ws[n]), t);
    }
  }

  /** Every cut of beginning the transaction: once its file is written, it drives the transaction. */
  lemma {:induction false} PreparationIsARun(s: Sys, ws: seq<D.Write>) returns (t: Sys)
    requires Reached(s) && InProgress(s, Verified) && s.disk.txn.None?
    requires D.Lawful(s.disk, ws) && forall i :: 0 <= i < |ws| ==> D.Preparing(ws[i], s.process.exchange.gen)
    ensures Reached(t) && t == s.(disk := D.ApplyAll(s.disk, ws), process := t.process)
    ensures t.process == if t.disk.txn.Some? then WithProgress(s.process, Started) else s.process
  {
    t := s;
    if ws != [] {
      var n := |ws| - 1;
      var u := PreparationIsARun(s, ws[..n]);
      assert D.Preparing(ws[n], s.process.exchange.gen) && D.Legal(u.disk, ws[n]);
      assert u.disk.txn.None?;
      var disk := D.Apply(u.disk, ws[n]);
      t := u.(disk := disk, process := if disk.txn.Some? then WithProgress(u.process, Started) else u.process);
      Then(u, DesktopWrites(ws[n]), t);
    }
  }

  // ----- the two stores side by side

  /** The files and the store are as some careful run has them, with the desktop process at q. */
  ghost predicate Linked(q: Process, d: D.Disk, p: P.Store) {
    exists s :: Reached(s) && s.process == q && s.disk == d && s.phone == p
  }

  /** And m has been sent. */
  ghost predicate LinkedSent(q: Process, d: D.Disk, p: P.Store, m: Message) {
    exists s :: Reached(s) && s.process == q && s.disk == d && s.phone == p && m in s.net
  }

  lemma {:induction false} OwnWritesLinked(q: Process, origin: D.Disk, earlier: seq<D.Write>, later: seq<D.Write>, p: P.Store)
    requires Drives(q) && Linked(q, D.ApplyAll(origin, earlier), p)
    requires D.Lawful(origin, later) && earlier <= later
    requires forall i :: |earlier| <= i < |later| ==> D.OnItsOwn(later[i])
    ensures Linked(q, D.ApplyAll(origin, later), p)
  {
    var s :| Reached(s) && s.process == q && s.disk == D.ApplyAll(origin, earlier) && s.phone == p;
    DiskSuffix(origin, earlier, later);
    var t := OwnWritesAreARun(s, later[|earlier|..]);
  }

  function Underway(q: Process, d: D.Disk): Process
    requires q.Pairing?
  {
    if d.txn.Some? then WithProgress(q, Started) else q
  }

  lemma {:induction false} PreparationLinked(
      q: Process, origin: D.Disk, earlier: seq<D.Write>, later: seq<D.Write>, p: P.Store)
    requires q.Pairing? && q.exchange.progress == Verified && D.ApplyAll(origin, earlier).txn.None?
    requires Linked(q, D.ApplyAll(origin, earlier), p)
    requires D.Lawful(origin, later) && earlier <= later
    requires forall i :: |earlier| <= i < |later| ==> D.Preparing(later[i], q.exchange.gen)
    ensures Linked(Underway(q, D.ApplyAll(origin, later)), D.ApplyAll(origin, later), p)
  {
    var s :| Reached(s) && s.process == q && s.disk == D.ApplyAll(origin, earlier) && s.phone == p;
    DiskSuffix(origin, earlier, later);
    var t := PreparationIsARun(s, later[|earlier|..]);
  }

  lemma {:induction false} DiskSuffix(origin: D.Disk, earlier: seq<D.Write>, later: seq<D.Write>)
    requires earlier <= later
    ensures D.ApplyAll(D.ApplyAll(origin, earlier), later[|earlier|..]) == D.ApplyAll(origin, later)
    ensures D.Lawful(origin, later) ==> D.Lawful(D.ApplyAll(origin, earlier), later[|earlier|..])
  {
    if later == earlier {
    } else {
      var n := |later| - 1;
      assert earlier <= later[..n];
      DiskSuffix(origin, earlier, later[..n]);
      assert later[|earlier|..][..n - |earlier|] == later[..n][|earlier|..];
    }
  }

  lemma {:induction false} StoreSuffix(origin: P.Store, earlier: seq<PH.Stamped>, later: seq<PH.Stamped>)
    requires earlier <= later
    ensures PH.ApplyAll(PH.ApplyAll(origin, earlier), later[|earlier|..]) == PH.ApplyAll(origin, later)
    ensures PH.Lawful(origin, later) ==> PH.Lawful(PH.ApplyAll(origin, earlier), later[|earlier|..])
  {
    if later == earlier {
    } else {
      var n := |later| - 1;
      assert earlier <= later[..n];
      StoreSuffix(origin, earlier, later[..n]);
      assert later[|earlier|..][..n - |earlier|] == later[..n][|earlier|..];
    }
  }

  /** The request of a phase, its acknowledgement, and the phase that follows. */
  function RequestOf(t: D.Txn): Message {
    if t.phase == D.Prepared then Commit(t.gen) else Activate(t.gen)
  }

  function AckOf(t: D.Txn): Message {
    if t.phase == D.Prepared then CommitAck(t.gen) else ActivateAck(t.gen)
  }

  function OpOf(t: D.Txn): P.Op {
    if t.phase == D.Prepared then P.Commit(t.gen) else P.Activate(t.gen)
  }

  predicate Waits(d: D.Disk) {
    D.InPhase(d, D.Prepared) || D.InPhase(d, D.LocallyActivated)
  }

  lemma {:induction false} RequestLinked(q: Process, d: D.Disk, p: P.Store)
    requires Waits(d) && Linked(q, d, p)
    ensures LinkedSent(q, d, p, RequestOf(d.txn.value))
  {
    var s :| Reached(s) && s.process == q && s.disk == d && s.phone == p;
    var t := s.(net := s.net + {RequestOf(d.txn.value)});
    Then(s, DesktopSends(RequestOf(d.txn.value)), t);
  }

  /** The phone carries the request out as far as it gets, authorization included. */
  lemma {:induction false} AnswerLinked(
      q: Process, d: D.Disk, origin: P.Store, earlier: seq<PH.Stamped>, later: seq<PH.Stamped>)
    requires Waits(d) && LinkedSent(q, d, PH.ApplyAll(origin, earlier), RequestOf(d.txn.value))
    requires PH.Lawful(origin, later) && earlier <= later
    requires forall i :: |earlier| <= i < |later| ==> later[i].op == OpOf(d.txn.value) || later[i].op == P.Check
    ensures LinkedSent(q, d, PH.ApplyAll(origin, later), RequestOf(d.txn.value))
  {
    var s :| Reached(s) && s.process == q && s.disk == d && s.phone == PH.ApplyAll(origin, earlier)
             && RequestOf(d.txn.value) in s.net;
    StoreSuffix(origin, earlier, later);
    NoBundleStored(s.phone, later[|earlier|..]);
    var t := PhoneOperationsAreARun(s, later[|earlier|..]);
  }

  lemma {:induction false} NoBundleStored(p: P.Store, ws: seq<PH.Stamped>)
    requires PH.Lawful(p, ws) && forall i :: 0 <= i < |ws| ==> !ws[i].op.Publish?
    ensures forall i :: 0 <= i < |ws| ==> !ws[i].write.PutBundle?
  {
    if ws != [] {
      NoBundleStored(p, ws[..|ws| - 1]);
    }
  }

  /** The phone acknowledges what it has carried out. */
  lemma {:induction false} AckLinked(q: Process, d: D.Disk, p: P.Store)
    requires Waits(d) && LinkedSent(q, d, p, RequestOf(d.txn.value))
    requires if D.InPhase(d, D.Prepared) then p.committed == Some(d.txn.value.gen) else p.active == Some(d.txn.value.gen)
    ensures LinkedSent(q, d, p, AckOf(d.txn.value))
  {
    var s :| Reached(s) && s.process == q && s.disk == d && s.phone == p && RequestOf(d.txn.value) in s.net;
    ReachedHistory(s);
    var t := s.(net := s.net + {AckOf(d.txn.value)});
    if D.InPhase(d, D.Prepared) {
      Then(s, PhoneAcksCommit(d.txn.value.gen), t);
    } else {
      Then(s, PhoneAcksActivate(d.txn.value.gen), t);
    }
  }

  lemma {:induction false} SentIsLinked(q: Process, d: D.Disk, p: P.Store, m: Message)
    requires LinkedSent(q, d, p, m)
    ensures Linked(q, d, p)
  {
    var s :| Reached(s) && s.process == q && s.disk == d && s.phone == p && m in s.net;
  }

  function PhaseAfter(t: D.Txn): D.Phase {
    if t.phase == D.Prepared then D.PhoneCommitted else D.FullyActivated
  }

  /** Once the acknowledgement is there, the desktop marks the next phase. */
  lemma {:induction false} MarkLinked(q: Process, d: D.Disk, p: P.Store)
    requires Waits(d) && LinkedSent(q, d, p, AckOf(d.txn.value))
    ensures Linked(q, D.Advanced(d, PhaseAfter(d.txn.value)), p)
  {
    var s :| Reached(s) && s.process == q && s.disk == d && s.phone == p && AckOf(d.txn.value) in s.net;
    var w := D.WriteTxn(d.txn.value.(phase := PhaseAfter(d.txn.value)));
    var t := s.(disk := D.Apply(d, w));
    Then(s, DesktopWrites(w), t);
  }

  // ----- a replacement from the session's first write to its return

  /** The process has the hello of a setup that still waits on its stream. */
  ghost predicate LinkedWaiting(q: Process, d: D.Disk, p: P.Store) {
    exists s ::
      && Reached(s) && s.process == q && s.disk == d && s.phone == p
      && q.Pairing? && q.exchange.gen in s.setups && s.setups[q.exchange.gen] == Dialled
  }

  /** The session's request to pair was approved, and the hello of g with this share has arrived. */
  ghost predicate LinkedOffer(session: Session, g: Gen, share: Share, d: D.Disk, p: P.Store) {
    exists s ::
      && Reached(s) && s.process == Idle(session, true) && s.disk == d && s.phone == p
      && g in s.hellos && g in s.minted && s.minted[g].share == share
      && g in s.setups && s.setups[g] == Dialled
  }

  function Collects(session: Session, g: Gen, share: Share): Process {
    Pairing(Some(session), Exchange(g, Seal(session.local, share, session.salt, session.plaintext), Collecting))
  }

  lemma {:induction false} OfferLinked(session: Session, g: Gen, share: Share, d: D.Disk, p: P.Store)
    requires LinkedOffer(session, g, share, d, p)
    requires d.txn.None? && d.pendingRecord.None? && d.record.Some?
    ensures LinkedWaiting(Collects(session, g, share), d, p)
  {
    var s :| Reached(s) && s.process == Idle(session, true) && s.disk == d && s.phone == p
             && g in s.hellos && g in s.minted && s.minted[g].share == share
             && g in s.setups && s.setups[g] == Dialled;
    var t := s.(hellos := s.hellos - {g}, process := Collects(session, g, share));
    Then(s, DesktopPairs(g), t);
  }

  lemma {:induction false} WaitingIsLinked(q: Process, d: D.Disk, p: P.Store)
    requires LinkedWaiting(q, d, p)
    ensures Linked(q, d, p)
  {
    var s :| Reached(s) && s.process == q && s.disk == d && s.phone == p
             && q.Pairing? && q.exchange.gen in s.setups && s.setups[q.exchange.gen] == Dialled;
  }

  lemma {:induction false} PendingLinked(q: Process, d: D.Disk, p: P.Store, w: D.Write)
    requires LinkedWaiting(q, d, p) && q.Pairing? && q.exchange.progress == Collecting && d.txn.None?
    requires w == D.WritePendingVault(q.exchange.blob) || w == D.WritePendingRecord(D.Record(q.exchange.gen, PHONE))
    ensures LinkedWaiting(q, D.Apply(d, w), p)
  {
    var s :| Reached(s) && s.process == q && s.disk == d && s.phone == p
             && q.exchange.gen in s.setups && s.setups[q.exchange.gen] == Dialled;
    var t := s.(disk := D.Apply(d, w));
    Then(s, DesktopWrites(w), t);
  }

  lemma {:induction false} ReadyIsSent(s: Sys, g: Gen) returns (t: Sys)
    requires Reached(s) && InProgress(s, Collecting) && s.process.exchange.gen == g
    requires s.disk.pendingVault.Some? && s.disk.pendingRecord.Some? && g in s.setups && s.setups[g] == Dialled
    ensures Reached(t) && t == s.(net := s.net + {Prepared(g), Ready(g)})
  {
    var u := s.(net := s.net + {Prepared(g)});
    Then(s, DesktopSends(Prepared(g)), u);
    t := u.(net := u.net + {Ready(g)});
    Then(u, PhoneSendsReady(g), t);
    assert t.net == s.net + {Prepared(g), Ready(g)};
  }

  /** Prepared goes out, the phone signs that it is ready, and the desktop verifies it. */
  lemma {:induction false} ReadyLinked(q: Process, d: D.Disk, p: P.Store)
    requires LinkedWaiting(q, d, p) && q.Pairing? && q.exchange.progress == Collecting
    requires d.pendingVault == Some(q.exchange.blob) && d.pendingRecord == Some(D.Record(q.exchange.gen, PHONE))
    ensures Linked(WithProgress(q, Verified), d, p)
  {
    var g := q.exchange.gen;
    var s :| Reached(s) && s.process == q && s.disk == d && s.phone == p && g in s.setups && s.setups[g] == Dialled;
    var t := ReadyIsSent(s, g);
    Then(t, DesktopVerifies, t.(process := WithProgress(q, Verified)));
  }

  /** Somewhere between its first write and its last. */
  ghost predicate LinkedPairing(q: Process, d: D.Disk, p: P.Store) {
    && q.Pairing?
    && (|| Linked(WithProgress(q, Collecting), d, p)
        || Linked(WithProgress(q, Verified), d, p)
        || Linked(WithProgress(q, Started), d, p))
  }

  lemma {:induction false} PairingStops(q: Process, d: D.Disk, p: P.Store)
    requires LinkedPairing(q, d, p)
    ensures Linked(Down, d, p)
    ensures d.txn.None? ==> Linked(WithProgress(q, Failing), d, p)
  {
    var progress := if Linked(WithProgress(q, Collecting), d, p) then Collecting
                    else if Linked(WithProgress(q, Verified), d, p) then Verified else Started;
    StopLinked(WithProgress(q, progress), d, p);
    if d.txn.None? {
      FailureLinked(WithProgress(q, progress), d, p);
    }
  }

  lemma {:induction false} FailureLinked(q: Process, d: D.Disk, p: P.Store)
    requires Linked(q, d, p) && q.Pairing? && d.txn.None?
    ensures Linked(WithProgress(q, Failing), d, p)
  {
    var s :| Reached(s) && s.process == q && s.disk == d && s.phone == p;
    Then(s, DesktopFails, s.(process := WithProgress(q, Failing)));
  }

  lemma {:induction false} ReturnLinked(q: Process, d: D.Disk, p: P.Store)
    requires Linked(q, d, p) && q.Pairing? && q.exchange.progress == Failing && q.from.Some? && d.txn.None?
    ensures Linked(Idle(q.from.value, false), d, p)
  {
    var s :| Reached(s) && s.process == q && s.disk == d && s.phone == p;
    Then(s, DesktopReturns, s.(process := Idle(q.from.value, false)));
  }

  lemma {:induction false} FinishLinked(q: Process, d: D.Disk, p: P.Store)
    requires Linked(q, d, p) && q.Pairing? && q.exchange.progress == Started && q.from.Some? && D.Recovered(d)
    ensures Linked(Idle(Adopt(q.from.value, q.exchange), false), d, p)
  {
    var s :| Reached(s) && s.process == q && s.disk == d && s.phone == p;
    Then(s, DesktopFinishes, s.(process := Idle(Adopt(q.from.value, q.exchange), false)));
  }

  lemma {:induction false} StopLinked(q: Process, d: D.Disk, p: P.Store)
    requires Linked(q, d, p)
    ensures Linked(Down, d, p)
  {
    var s :| Reached(s) && s.process == q && s.disk == d && s.phone == p;
    Then(s, DesktopStops, s.(process := Down));
  }
}
