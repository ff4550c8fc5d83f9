/** Every step of either device keeps the invariant. */
module PairingSafety {
  import opened PairingTypes
  import opened PairingProtocol
  import opened PairingInvariant
  import P = PhoneStore
  import PhoneHistory
  import D = DesktopDisk

  // ----- the phone

  ghost predicate PhoneMove(s: Sys, op: P.Op, w: P.Write) {
    P.Legal(op, s.phone, w) && Authorized(s, op) && (w.PutBundle? ==> Fresh(s, w.b))
  }

  /** The write leaves the offered generation g alone, unless it activates it. */
  ghost predicate LeavesOffer(s: Sys, op: P.Op, w: P.Write, g: Gen) {
    var t := AfterPhoneWrite(s, w);
    && g in s.phone.bundles && g in t.phone.bundles && g in t.phone.keys && t.phone.bundles[g] == s.phone.bundles[g]
    && (if w == P.SetPointer(P.Active, g) then op == P.Activate(g) && s.phone.committed == Some(g) else Offered(t, g))
  }

  lemma OfferedKeptBySet(s: Sys, op: P.Op, p: P.Pointer, h: Gen, g: Gen)
    requires P.Inv(s.phone) && HistoryOk(s) && PhoneMove(s, op, P.SetPointer(p, h)) && Offered(s, g)
    ensures LeavesOffer(s, op, P.SetPointer(p, h), g)
  {
    match p {
      case Active =>
      case Staging =>
      case Pending =>
      case Committed =>
      case Retiring =>
    }
  }

  lemma OfferedKeptByClear(s: Sys, op: P.Op, p: P.Pointer, g: Gen)
    requires P.Inv(s.phone) && HistoryOk(s) && PhoneMove(s, op, P.ClearPointer(p)) && Offered(s, g)
    ensures LeavesOffer(s, op, P.ClearPointer(p), g)
  {
    match p {
      case Staging =>
      case Pending =>
      case Committed =>
      case Retiring =>
    }
  }

  lemma OfferedKeptByOthers(s: Sys, op: P.Op, w: P.Write, g: Gen)
    requires P.Inv(s.phone) && HistoryOk(s) && MintedOk(s) && PhoneMove(s, op, w) && Offered(s, g)
    requires !w.SetPointer? && !w.ClearPointer?
    ensures LeavesOffer(s, op, w, g)
  {
    match w {
      case PutBundle(_) =>
      case DropBundle(_) =>
      case AddKey(_) =>
      case DropKey(_) =>
      case ClearAttempts(_) =>
    }
  }

  /** A durable write on the phone leaves an offered generation alone, unless it activates it. */
  lemma OfferedKept(s: Sys, op: P.Op, w: P.Write, g: Gen)
    requires P.Inv(s.phone) && HistoryOk(s) && MintedOk(s) && PhoneMove(s, op, w) && Offered(s, g)
    ensures LeavesOffer(s, op, w, g)
  {
    match w {
      case SetPointer(p, h) => OfferedKeptBySet(s, op, p, h, g);
      case ClearPointer(p) => OfferedKeptByClear(s, op, p, g);
      case _ => OfferedKeptByOthers(s, op, w, g);
    }
  }

  lemma ActiveKept(s: Sys, op: P.Op, w: P.Write, g: Gen)
    requires P.Inv(s.phone) && HistoryOk(s) && MintedOk(s) && PhoneMove(s, op, w)
    requires s.phone.active == Some(g)
    ensures var t := AfterPhoneWrite(s, w);
            && g in t.phone.bundles && t.phone.bundles[g] == s.phone.bundles[g]
            && (g in s.phone.keys ==> g in t.phone.keys)
            && (t.phone.active == Some(g) || (w.SetPointer? && w.p == P.Active && s.phone.committed == Some(w.g)))
  {
    PhoneHistory.ActiveMaterialKept(op, s.phone, w, g);
    if w.PutBundle? {
      assert w.b.id != g;
    } else if P.Apply(s.phone, w).active != s.phone.active {
      PhoneHistory.ActiveMovesOnlyAtFlip(op, s.phone, w);
    }
  }

  predicate InPreparation(s: Sys, g: Option<Gen>) {
    g.Some? && g.value in s.setups && s.setups[g.value] == Preparing
  }

  /** What one durable write on the phone can do to its pointers and bundles. */
  ghost predicate Moved(s: Sys, t: Sys) {
    var p, q := s.phone, t.phone;
    && t == s.(phone := q, minted := t.minted,
               wasCommitted := s.wasCommitted + Elements(q.committed), wasActive := s.wasActive + Elements(q.active))
    && (q.staging == p.staging || q.staging.None? || (InPreparation(s, q.staging) && p.committed.None?))
    && (q.pending == p.pending || q.pending.None? || InPreparation(s, q.pending))
    && (q.committed == p.committed || (q.committed.None? && p.committed == p.active)
        || (q.committed.Some? && q.committed == p.pending && q.committed != p.active && Commit(q.committed.value) in s.net))
    && (q.active == p.active
        || (q.active.Some? && q.active == p.pending && q.active == p.committed && Activate(q.active.value) in s.net
            && q.committed == p.committed))
    && (q.retiring == p.retiring || q.retiring.None? || q.retiring == p.active)
    && (t.minted == s.minted
        || exists b: P.Bundle :: b.id in s.setups && s.setups[b.id] == Preparing && Fresh(s, b) && t.minted == s.minted[b.id := b])
    && (forall g :: g in q.bundles ==> g in t.minted && t.minted[g] == q.bundles[g])
  }

  lemma MoveIsMoved(s: Sys, op: P.Op, w: P.Write)
    requires P.Inv(s.phone) && MintedOk(s) && PhoneMove(s, op, w)
    ensures Moved(s, AfterPhoneWrite(s, w))
  {
    match w {
      case SetPointer(p, h) =>
        match p {
          case Active =>
          case Staging =>
          case Pending =>
          case Committed =>
          case Retiring =>
        }
      case ClearPointer(p) =>
        match p {
          case Staging =>
          case Pending =>
          case Committed =>
          case Retiring =>
        }
      case PutBundle(b) => assert Fresh(s, b);
      case DropBundle(_) =>
      case AddKey(_) =>
      case DropKey(_) =>
      case ClearAttempts(_) =>
    }
  }

  /** A commit marker or a pointer flip appears only for the transaction, in the phase that asked for it. */
  lemma MarkersFollowTxn(s: Sys, t: Sys)
    requires P.Inv(s.phone) && HistoryOk(s) && MailOk(s) && Agreement(s) && Moved(s, t)
    ensures t.phone.committed.Some? && t.phone.committed != s.phone.committed ==>
              TxnFor(s, t.phone.committed.value) && OfferedHere(s, t.phone.committed.value)
    ensures t.phone.active != s.phone.active ==>
              && t.phone.active.Some? && TxnFor(s, t.phone.active.value) && OfferedHere(s, t.phone.active.value)
              && s.disk.txn.value.phase == D.LocallyActivated
  {
  }

  predicate BundleAndKeyKept(s: Sys, t: Sys, g: Gen) {
    && g in s.phone.bundles && g in t.phone.bundles && t.phone.bundles[g] == s.phone.bundles[g]
    && (g in s.phone.keys ==> g in t.phone.keys)
  }

  ghost predicate OffersKept(s: Sys, t: Sys) {
    forall g: Gen :: Offered(s, g) ==> BundleAndKeyKept(s, t, g) && (t.phone.active == Some(g) || Offered(t, g))
  }

  /** No pointer but retiring ever returns to a generation that was active and is no longer. */
  lemma SupersededStaysUnmarked(s: Sys, t: Sys, g: Gen)
    requires P.Inv(s.phone) && P.Inv(t.phone) && HistoryOk(s) && SetupsOk(s) && Moved(s, t)
    requires g in t.wasActive && t.phone.active != Some(g)
    ensures t.phone.pending != Some(g) && t.phone.staging != Some(g) && t.phone.committed != Some(g)
  {
    assert g in s.wasActive;
  }

  lemma MovedKeepsHistory(s: Sys, t: Sys)
    requires P.Inv(s.phone) && P.Inv(t.phone) && HistoryOk(s) && MintedOk(s) && SetupsOk(s) && Moved(s, t)
    requires t.phone.active.Some? ==>
               && BundleAndKeyKept(s, t, t.phone.active.value) && t.phone.active.value in t.phone.keys
               && t.phone.bundles[t.phone.active.value].cli == DESKTOP
    ensures HistoryOk(t)
  {
    forall g | g in t.wasActive && t.phone.active != Some(g)
      ensures t.phone.pending != Some(g) && t.phone.staging != Some(g) && t.phone.committed != Some(g)
    {
      SupersededStaysUnmarked(s, t, g);
    }
  }

  lemma MovedKeepsMinted(s: Sys, t: Sys)
    requires MintedOk(s) && Moved(s, t)
    ensures MintedOk(t)
  {
  }

  lemma MovedKeepsSetups(s: Sys, t: Sys)
    requires SetupsOk(s) && Moved(s, t)
    requires HistoryOk(s) && OffersKept(s, t)
    requires t.phone.active != s.phone.active ==> t.phone.active.Some? && TxnFor(s, t.phone.active.value)
    ensures SetupsOk(t)
  {
  }

  lemma MovedKeepsMail(s: Sys, t: Sys)
    requires MailOk(s) && Moved(s, t)
    requires OffersKept(s, t)
    requires t.phone.active != s.phone.active ==> t.phone.active.Some? && TxnFor(s, t.phone.active.value)
    requires HistoryOk(s)
    ensures MailOk(t)
  {
    forall g | g in t.hellos ensures OfferedHere(t, g) && !Engaged(t, g) {
      assert OfferedHere(s, g) && !Engaged(s, g);
      assert t.phone.active != Some(g);
    }
  }

  lemma MovedKeepsLive(s: Sys, t: Sys)
    requires LiveMatches(s) && Moved(s, t) && t.phone.active == s.phone.active
    requires s.phone.active.Some? ==> BundleAndKeyKept(s, t, s.phone.active.value)
    ensures LiveMatches(t)
  {
  }

  /** An offered generation that is committed stays so until it becomes active. */
  lemma MovedKeepsOffer(s: Sys, t: Sys, g: Gen)
    requires P.Inv(s.phone) && HistoryOk(s) && Moved(s, t) && OfferedHere(s, g)
    requires BundleAndKeyKept(s, t, g) && (t.phone.active == Some(g) || Offered(t, g))
    ensures t.phone.active != Some(g) ==> OfferedHere(t, g)
    ensures s.phone.committed == Some(g) ==> t.phone.committed == Some(g)
  {
  }

  lemma MovedKeepsAgreement(s: Sys, t: Sys)
    requires P.Inv(s.phone) && HistoryOk(s) && MailOk(s) && Agreement(s) && Moved(s, t)
    requires s.phone.active.Some? ==> BundleAndKeyKept(s, t, s.phone.active.value)
    requires OffersKept(s, t)
    ensures Agreement(t)
  {
    MarkersFollowTxn(s, t);
    if s.disk.txn.Some? && OfferedHere(s, s.disk.txn.value.gen) {
      MovedKeepsOffer(s, t, s.disk.txn.value.gen);
    }
    if t.phone.active == s.phone.active && LiveMatches(s) {
      MovedKeepsLive(s, t);
    }
  }

  lemma MovedKeepsProcess(s: Sys, t: Sys)
    requires ProcessOk(s) && MintedOk(s) && Moved(s, t)
    requires OffersKept(s, t)
    requires t.phone.active != s.phone.active ==> t.phone.active.Some? && TxnFor(s, t.phone.active.value)
    requires HistoryOk(s)
    ensures ProcessOk(t)
  {
  }

  lemma PhoneWriteKeepsInv(s: Sys, op: P.Op, w: P.Write)
    requires Inv(s) && PhoneMove(s, op, w)
    ensures Inv(AfterPhoneWrite(s, w))
  {
    var t := AfterPhoneWrite(s, w);
    PhoneHistory.LegalKeepsInv(op, s.phone, w);
    MoveIsMoved(s, op, w);
    MarkersFollowTxn(s, t);
    forall g: Gen | Offered(s, g) ensures BundleAndKeyKept(s, t, g) && (t.phone.active == Some(g) || Offered(t, g)) {
      OfferedKept(s, op, w, g);
    }
    if s.phone.active.Some? {
      ActiveKept(s, op, w, s.phone.active.value);
    }
    MovedKeepsHistory(s, t);
    MovedKeepsMinted(s, t);
    MovedKeepsSetups(s, t);
    MovedKeepsMail(s, t);
    MovedKeepsAgreement(s, t);
    MovedKeepsProcess(s, t);
  }
}
