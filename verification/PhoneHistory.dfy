/** What every sequence of durable writes on the phone keeps, wherever it is cut short. */
module PhoneHistory {
  import opened PairingTypes
  import opened PhoneStore

  datatype Stamped = Stamped(op: Op, write: Write)

  function ApplyAll(s: Store, ws: seq<Stamped>): Store {
    if ws == [] then s else Apply(ApplyAll(s, ws[..|ws| - 1]), ws[|ws| - 1].write)
  }

  /** Every write of ws is one its operation makes in the state it meets: any mix of operations, each cut anywhere. */
  predicate Lawful(s: Store, ws: seq<Stamped>) {
    ws == [] ||
    var before := ws[..|ws| - 1];
    Lawful(s, before) && Legal(ws[|ws| - 1].op, ApplyAll(s, before), ws[|ws| - 1].write)
  }

  lemma LegalKeepsPointers(op: Op, s: Store, w: Write)
    requires Inv(s) && Legal(op, s, w)
    ensures PointersAgree(Apply(s, w))
  {
    match w {
      case SetPointer(p, g) =>
        match p {
          case Active =>
          case Staging =>
          case Pending =>
          case Committed =>
          case Retiring =>
        }
      case ClearPointer(p) =>
        match p {
          case Staging =>
          case Pending =>
          case Committed =>
          case Retiring =>
        }
      case PutBundle(_) =>
      case DropBundle(_) =>
      case AddKey(_) =>
      case DropKey(_) =>
      case ClearAttempts(_) =>
    }
  }

  lemma LegalSetKeepsReferences(op: Op, s: Store, q: Pointer, h: Gen, g: Gen)
    requires Inv(s) && LegalSet(op, s, q, h) && Referenced(s, g)
    ensures Referenced(Point(s, q, Some(h)), g)
  {
    var t := Point(s, q, Some(h));
    var p :| Get(s, p) == Some(g);
    if p == q {
      match q {
        case Active => assert Get(t, Retiring) == Some(g);
        case Staging =>
        case Pending => assert Get(t, Pending) == Some(g);
        case Committed => assert Get(t, Committed) == Some(g);
        case Retiring => assert Get(t, Retiring) == Some(g);
      }
    } else {
      assert Get(t, p) == Some(g);
    }
  }

  lemma LegalClearKeepsReferences(op: Op, s: Store, q: Pointer, g: Gen)
    requires LegalClear(op, s, q) && Referenced(s, g)
    requires g in s.bundles || g in s.keys
    ensures Referenced(Point(s, q, None), g)
  {
    var t := Point(s, q, None);
    var p :| Get(s, p) == Some(g);
    if p == q {
      match q {
        case Staging => assert Get(t, Active) == Some(g);
        case Pending => assert Get(t, Active) == Some(g);
        case Committed => assert Get(t, Active) == Some(g);
        case Retiring =>
      }
    } else {
      assert Get(t, p) == Some(g);
    }
  }

  /** A write never takes the last pointer off a stored bundle or approval key. */
  lemma LegalKeepsReferences(op: Op, s: Store, w: Write, g: Gen)
    requires Inv(s) && Legal(op, s, w) && Referenced(s, g)
    requires g in Apply(s, w).bundles || g in Apply(s, w).keys
    ensures Referenced(Apply(s, w), g)
  {
    match w {
      case SetPointer(q, h) => LegalSetKeepsReferences(op, s, q, h, g);
      case ClearPointer(q) => LegalClearKeepsReferences(op, s, q, g);
      case _ =>
        var p :| Get(s, p) == Some(g);
        assert Get(Apply(s, w), p) == Some(g);
    }
  }

  lemma LegalKeepsBundle(op: Op, s: Store, w: Write, g: Gen)
    requires Inv(s) && Legal(op, s, w) && g in Apply(s, w).bundles
    ensures var t := Apply(s, w);
            Referenced(t, g) && t.bundles[g].id == g && t.bundles[g].wellFormed
  {
    if w.PutBundle? && w.b.id == g {
      assert Get(Apply(s, w), Staging) == Some(g);
    } else {
      LegalKeepsReferences(op, s, w, g);
    }
  }

  /** The bundles that activation and commit rest on are not removed. */
  lemma LegalKeepsNeeded(op: Op, s: Store, w: Write)
    requires Inv(s) && Legal(op, s, w)
    ensures var t := Apply(s, w);
            && (t.active.Some? ==> t.active.value in t.bundles)
            && (t.committed.Some? ==> t.committed.value in t.bundles)
  {
    match w {
      case SetPointer(p, _) =>
        match p {
          case Active =>
          case Committed =>
          case _ =>
        }
      case DropBundle(g) => assert !Needed(s, g);
      case _ =>
    }
  }

  /** The active or the committed generation. */
  predicate Needed(s: Store, g: Gen) {
    s.active == Some(g) || s.committed == Some(g)
  }

  lemma LegalKeepsInv(op: Op, s: Store, w: Write)
    requires Inv(s) && Legal(op, s, w)
    ensures Inv(Apply(s, w))
  {
    LegalKeepsPointers(op, s, w);
    LegalKeepsNeeded(op, s, w);
    var t := Apply(s, w);
    forall g | g in t.bundles
      ensures Referenced(t, g) && t.bundles[g].id == g && t.bundles[g].wellFormed
    {
      LegalKeepsBundle(op, s, w, g);
    }
  }

  /** No orphaned bundle: wherever any mix of operations is cut, Inv holds. */
  lemma {:induction false} LawfulKeepsInv(s: Store, ws: seq<Stamped>)
    requires Inv(s) && Lawful(s, ws)
    ensures Inv(ApplyAll(s, ws))
  {
    if ws != [] {
      var before := ws[..|ws| - 1];
      LawfulKeepsInv(s, before);
      LegalKeepsInv(ws[|ws| - 1].op, ApplyAll(s, before), ws[|ws| - 1].write);
    }
  }

  // ----- a setup from its beginning to its end

  /** A new setup is let in: nothing is published, and nothing committed but what is active already. */
  predicate Free(s: Store) {
    (s.committed.None? && s.pending.None?) || (s.active.Some? && s.committed == s.active)
  }

  /** The store of a setup that has generated its key and is about to publish its bundle. */
  function Keyed(s: Store, g: Gen): Store {
    Begun(s, g).store.(keys := Begun(s, g).store.keys + {g})
  }

  lemma FinalizedWhenFree(s: Store)
    requires Inv(s) && Free(s)
    ensures var t := Finalized(s);
            && t.pending.None? && t.committed.None? && t.active == s.active
            && (t.staging.None? || t.staging == s.staging) && (t.retiring.None? || t.retiring == s.retiring)
            && (s.active.Some? ==> s.active.value in t.bundles && t.bundles[s.active.value] == s.bundles[s.active.value])
  {
    if s.active.Some? && s.committed == s.active {
      var t := Cleared(Cleared(Cleared(s, Staging, s.active.value), Pending, s.active.value), Committed, s.active.value);
      assert t == s.(staging := None, pending := None, committed := None);
      assert Finalized(s) == Retired(t);
    }
  }

  /** Nothing but the active generation, and perhaps an older one being retired, is left when a setup has begun. */
  lemma SetupBegins(s: Store, g: Gen)
    requires Inv(s) && Free(s) && s.active != Some(g) && s.retiring != Some(g)
    ensures Begun(s, g).ok
    ensures var t := Begun(s, g).store;
            && t.staging == Some(g) && t.pending.None? && t.committed.None? && t.active == s.active
            && (t.retiring.None? || (t.retiring == s.retiring && t.retiring != Some(g)))
            && (s.active.Some? ==> s.active.value in t.bundles && t.bundles[s.active.value] == s.bundles[s.active.value])
  {
    FinalizedWhenFree(s);
    var t := Finalized(s);
    assert Finalized(t) == t;
    CandidatesDropped(t);
    assert Begun(s, g).store == DropAll(t, Candidates(t)).(staging := Some(g), pending := None);
  }

  /** The staged and the published generation, unless active. */
  function Uncommitted(s: Store): set<Gen> {
    (if s.staging.Some? && s.staging != s.active then {s.staging.value} else {})
    + (if s.pending.Some? && s.pending != s.active then {s.pending.value} else {})
  }

  lemma DropOne(s: Store, g: Gen)
    ensures DropAll(s, [g]) == if s.active == Some(g) then s else Removed(s, g)
  {
    assert [g][..0] == [];
    assert DropAll(s, []) == s;
  }

  lemma DropTwo(s: Store, g: Gen, h: Gen)
    ensures DropAll(s, [g, h]) == var t := DropAll(s, [g]); if s.active == Some(h) then t else Removed(t, h)
  {
    assert [g, h][..1] == [g];
  }

  lemma CandidatesDropped(s: Store)
    ensures DropAll(s, Candidates(s)) == s.(bundles := s.bundles - Uncommitted(s), keys := s.keys - Uncommitted(s))
  {
    var gs := Candidates(s);
    if |gs| >= 1 {
      DropOne(s, gs[0]);
    }
    if |gs| == 2 {
      DropTwo(s, gs[0], gs[1]);
    }
    assert DropAll(s, gs).bundles == s.bundles - Uncommitted(s);
    assert DropAll(s, gs).keys == s.keys - Uncommitted(s);
  }

  /** Once published, a generation can be committed and activated, and then it is the only one. */
  lemma SetupCompletes(s: Store, b: Bundle)
    requires Inv(s) && Free(s) && s.active != Some(b.id) && s.retiring != Some(b.id) && b.wellFormed
    ensures Begun(s, b.id).ok && Published(Keyed(s, b.id), b, b.id).ok
    ensures var published := Published(Keyed(s, b.id), b, b.id).store;
            && CommittedBy(published, b.id).ok
            && Activated(CommittedBy(published, b.id).store, b.id).ok
            && var t := Activated(CommittedBy(published, b.id).store, b.id).store;
               && t.active == Some(b.id) && b.id in t.keys && b.id in t.bundles && t.bundles[b.id] == b
               && t.staging.None? && t.pending.None? && t.committed.None? && t.retiring.None? && t.attempts == map[]
               && (s.active.Some? ==> s.active.value !in t.bundles && s.active.value !in t.keys)
  {
    SetupBegins(s, b.id);
  }

  /** Or it can be aborted, and then nothing of it is left and the active one is as it was. */
  lemma SetupAborts(s: Store, b: Bundle)
    requires Inv(s) && Free(s) && s.active != Some(b.id) && s.retiring != Some(b.id) && b.wellFormed
    ensures var published := Published(Keyed(s, b.id), b, b.id).store;
            forall t | t in {Keyed(s, b.id), published} ::
              && Aborted(t, b.id).ok
              && var u := Aborted(t, b.id).store;
                 && u.active == s.active && u.staging.None? && u.pending.None? && u.committed.None?
                 && b.id !in u.bundles && b.id !in u.keys
                 && (s.active.Some? ==> s.active.value in u.bundles && u.bundles[s.active.value] == s.bundles[s.active.value])
  {
    SetupBegins(s, b.id);
    CandidatesDropped(Keyed(s, b.id));
    CandidatesDropped(Published(Keyed(s, b.id), b, b.id).store);
  }

  // ----- approval keys

  predicate KeysReferenced(s: Store) {
    forall g :: g in s.keys ==> Referenced(s, g)
  }

  /** A key write keeps all keys referenced exactly when the generation it is for is referenced. */
  lemma KeyWriteOrphansIff(op: Op, s: Store, w: Write)
    requires Inv(s) && KeysReferenced(s) && Legal(op, s, w)
    ensures KeysReferenced(Apply(s, w)) <==> (w.AddKey? ==> Referenced(s, w.g))
  {
    var t := Apply(s, w);
    if w.AddKey? {
      assert forall p :: Get(t, p) == Get(s, p);
      assert w.g in t.keys;
    } else {
      forall g | g in t.keys ensures Referenced(t, g) {
        LegalKeepsReferences(op, s, w, g);
      }
    }
  }

  /** Operations that leave a setup in progress alone. */
  predicate Bystander(op: Op) {
    !op.Begin? && !op.Abort? && !op.Publish?
  }

  /**
   Setups that do not overlap: the key of g is generated after g was staged, and in between no other setup begins
   or is aborted; nor has this one published yet, as its program order has it.
   */
  predicate SetupsInTurn(ws: seq<Stamped>) {
    forall i :: 0 <= i < |ws| && ws[i].write.AddKey? ==>
      exists j :: 0 <= j < i && ws[j].write == SetPointer(Staging, ws[i].write.g) && QuietBetween(ws, j, i)
  }

  predicate QuietBetween(ws: seq<Stamped>, j: nat, i: nat) {
    forall k :: j < k < i && k < |ws| ==> Bystander(ws[k].op)
  }

  predicate JustStaged(s: Store, g: Gen) {
    s.staging == Some(g) && s.pending.None? && s.committed.None? && s.active != Some(g)
  }

  lemma BystandersKeepStaging(op: Op, s: Store, w: Write, g: Gen)
    requires Inv(s) && JustStaged(s, g) && Bystander(op) && Legal(op, s, w)
    ensures JustStaged(Apply(s, w), g)
  {
  }

  lemma {:induction false} StagedUntil(s: Store, ws: seq<Stamped>, j: nat, i: nat)
    requires Inv(s) && Lawful(s, ws) && j < i <= |ws| && ws[j].write.SetPointer? && ws[j].write.p == Staging
    requires QuietBetween(ws, j, i)
    ensures JustStaged(ApplyAll(s, ws[..i]), ws[j].write.g)
    decreases i
  {
    LawfulPrefix(s, ws, i);
    LawfulPrefix(s, ws, i - 1);
    LawfulKeepsInv(s, ws[..i - 1]);
    assert ws[..i][..i - 1] == ws[..i - 1];
    assert Legal(ws[i - 1].op, ApplyAll(s, ws[..i - 1]), ws[i - 1].write);
    if j < i - 1 {
      StagedUntil(s, ws, j, i - 1);
      BystandersKeepStaging(ws[i - 1].op, ApplyAll(s, ws[..i - 1]), ws[i - 1].write, ws[j].write.g);
    }
  }

  lemma {:induction false} LawfulPrefix(s: Store, ws: seq<Stamped>, i: nat)
    requires Lawful(s, ws) && i <= |ws|
    ensures Lawful(s, ws[..i])
  {
    if i < |ws| {
      LawfulPrefix(s, ws[..|ws| - 1], i);
      assert ws[..|ws| - 1][..i] == ws[..i];
    } else {
      assert ws[..i] == ws;
    }
  }

  lemma {:induction false} SetupsInTurnPrefix(ws: seq<Stamped>)
    requires ws != [] && SetupsInTurn(ws)
    ensures SetupsInTurn(ws[..|ws| - 1])
  {
    var before := ws[..|ws| - 1];
    forall i | 0 <= i < |before| && before[i].write.AddKey?
      ensures exists j :: 0 <= j < i && before[j].write == SetPointer(Staging, before[i].write.g) && QuietBetween(before, j, i)
    {
      var j :| 0 <= j < i && ws[j].write == SetPointer(Staging, ws[i].write.g) && QuietBetween(ws, j, i);
      assert before[j].write == SetPointer(Staging, before[i].write.g) && QuietBetween(before, j, i);
    }
  }

  /** As long as setups do not overlap no approval key is ever orphaned, wherever any operation is cut. */
  lemma {:induction false} NoOrphanKeys(s: Store, ws: seq<Stamped>)
    requires Inv(s) && KeysReferenced(s) && Lawful(s, ws) && SetupsInTurn(ws)
    ensures KeysReferenced(ApplyAll(s, ws))
  {
    if ws != [] {
      var n := |ws| - 1;
      SetupsInTurnPrefix(ws);
      NoOrphanKeys(s, ws[..n]);
      LawfulKeepsInv(s, ws[..n]);
      var t := ApplyAll(s, ws[..n]);
      if ws[n].write.AddKey? {
        var j :| 0 <= j < n && ws[j].write == SetPointer(Staging, ws[n].write.g) && QuietBetween(ws, j, n);
        StagedUntil(s, ws, j, n);
        assert Get(t, Staging) == Some(ws[n].write.g);
      }
      KeyWriteOrphansIff(ws[n].op, t, ws[n].write);
    }
  }

  /** Two overlapping setups: the second discards the first's staging before the first has its key. */
  lemma OverlappingSetupsOrphanAKey()
    ensures
      var ws := [Stamped(Begin(1), SetPointer(Staging, 1)), Stamped(Begin(2), ClearPointer(Staging)),
                 Stamped(Begin(2), SetPointer(Staging, 2)), Stamped(Generate(1), AddKey(1))];
      Lawful(EMPTY, ws) && !KeysReferenced(ApplyAll(EMPTY, ws))
  {
    var a := Stamped(Begin(1), SetPointer(Staging, 1));
    var b := Stamped(Begin(2), ClearPointer(Staging));
    var c := Stamped(Begin(2), SetPointer(Staging, 2));
    var d := Stamped(Generate(1), AddKey(1));
    assert [a][..0] == [];
    assert [a, b][..1] == [a];
    assert [a, b, c][..2] == [a, b];
    assert [a, b, c, d][..3] == [a, b, c];
    var t1 := EMPTY.(staging := Some(1));
    var t2 := EMPTY.(staging := Some(2));
    assert ApplyAll(EMPTY, [a]) == t1;
    assert ApplyAll(EMPTY, [a, b]) == EMPTY;
    assert ApplyAll(EMPTY, [a, b, c]) == t2;
    var t := ApplyAll(EMPTY, [a, b, c, d]);
    assert t == t2.(keys := {1});
    assert Lawful(EMPTY, []) && Legal(a.op, EMPTY, a.write) && Lawful(EMPTY, [a]);
    assert Legal(b.op, t1, b.write) && Lawful(EMPTY, [a, b]);
    assert Legal(c.op, EMPTY, c.write) && Lawful(EMPTY, [a, b, c]);
    assert 1 in t.keys;
    assert forall p :: Get(t, p) != Some(1);
  }

  // ----- commit is a point of no return

  /** g has a bundle and is still committed, or has become active at some point of the trace. */
  predicate Irrevocable(s: Store, ws: seq<Stamped>, g: Gen) {
    || (ApplyAll(s, ws).committed == Some(g) && g in ApplyAll(s, ws).bundles)
    || (exists i :: 0 <= i <= |ws| && ApplyAll(s, ws[..i]).active == Some(g))
  }

  lemma CommittedStepKept(op: Op, s: Store, w: Write, g: Gen)
    requires Inv(s) && Legal(op, s, w) && s.committed == Some(g)
    ensures s.active == Some(g) || Apply(s, w).committed == Some(g)
    ensures g in Apply(s, w).bundles
    ensures g in s.keys ==> g in Apply(s, w).keys
  {
  }

  lemma {:induction false} CommitIsPointOfNoReturn(s: Store, ws: seq<Stamped>, g: Gen)
    requires Inv(s) && s.committed == Some(g) && Lawful(s, ws)
    ensures Irrevocable(s, ws, g)
  {
    if ws == [] {
    } else {
      var n := |ws| - 1;
      var before := ws[..n];
      CommitIsPointOfNoReturn(s, before, g);
      LawfulKeepsInv(s, before);
      var t := ApplyAll(s, before);
      if t.committed == Some(g) && g in t.bundles {
        CommittedStepKept(ws[n].op, t, ws[n].write, g);
        if t.active == Some(g) {
          assert ApplyAll(s, ws[..n]).active == Some(g);
        }
      } else {
        var i :| 0 <= i <= n && ApplyAll(s, before[..i]).active == Some(g);
        assert before[..i] == ws[..i];
      }
    }
  }

  lemma ActiveMovesOnlyAtFlip(op: Op, s: Store, w: Write)
    requires Legal(op, s, w) && Apply(s, w).active != s.active
    ensures w.SetPointer? && w.p == Active && op == Activate(w.g) && Activatable(s, w.g)
  {
  }

  /** No single write removes the active generation's bundle or approval key. */
  lemma ActiveMaterialKept(op: Op, s: Store, w: Write, g: Gen)
    requires Inv(s) && Legal(op, s, w) && s.active == Some(g)
    ensures g in Apply(s, w).bundles
    ensures g in s.keys ==> g in Apply(s, w).keys
    ensures Apply(s, w).active == Some(g) || (op.Activate? && s.committed == Some(op.g) && Apply(s, w).retiring == Some(g))
  {
  }

  /** Nor does any stretch of any history during which it stays active. */
  lemma {:induction false} ActiveMaterialKeptThroughout(s: Store, ws: seq<Stamped>, g: Gen)
    requires Inv(s) && Lawful(s, ws) && s.active == Some(g)
    requires forall i :: 0 <= i <= |ws| ==> ApplyAll(s, ws[..i]).active == Some(g)
    ensures g in ApplyAll(s, ws).bundles
    ensures g in s.keys ==> g in ApplyAll(s, ws).keys
  {
    if ws != [] {
      var n := |ws| - 1;
      forall i | 0 <= i <= n ensures ApplyAll(s, ws[..n][..i]).active == Some(g) {
        assert ws[..n][..i] == ws[..i];
      }
      ActiveMaterialKeptThroughout(s, ws[..n], g);
      LawfulKeepsInv(s, ws[..n]);
      assert ApplyAll(s, ws[..n]).active == Some(g);
      ActiveMaterialKept(ws[n].op, ApplyAll(s, ws[..n]), ws[n].write, g);
    }
  }

  // ----- replayed transitions

  /** Operations that only carry out a commit or activation request for g. */
  predicate Serves(op: Op, g: Gen) {
    op == Commit(g) || op == Activate(g)
  }

  predicate AllServe(ws: seq<Stamped>, g: Gen) {
    forall i :: 0 <= i < |ws| ==> Serves(ws[i].op, g)
  }

  /** Requests for a retired or unknown generation make no write at all, however often they arrive, and are refused. */
  lemma {:induction false} ReplayForUnknownGenerationRefused(s: Store, ws: seq<Stamped>, g: Gen)
    requires Inv(s) && s.active != Some(g) && s.pending != Some(g) && s.committed != Some(g)
    requires Lawful(s, ws) && AllServe(ws, g)
    ensures ws == []
    ensures CommittedBy(s, g) == Outcome(false, s) && Activated(s, g) == Outcome(false, s)
  {
    if ws != [] {
      ReplayForUnknownGenerationRefused(s, ws[..|ws| - 1], g);
    }
  }

  /** t has all of s but, perhaps, the generation that s was retiring. */
  predicate OnlyRetired(s: Store, t: Store) {
    && t == s.(retiring := t.retiring, bundles := t.bundles, keys := t.keys)
    && (t.retiring == s.retiring || t.retiring.None?)
    && (forall h :: h in s.bundles && s.retiring != Some(h) ==> h in t.bundles && t.bundles[h] == s.bundles[h])
    && (forall h :: h in s.keys && s.retiring != Some(h) ==> h in t.keys)
  }

  lemma ReplayStepOnlyRetires(op: Op, s: Store, w: Write, g: Gen)
    requires Inv(s) && Serves(op, g) && s.active == Some(g) && s.committed != Some(g) && Legal(op, s, w)
    ensures OnlyRetired(s, Apply(s, w))
  {
  }

  /** Requests for the active generation, cut anywhere, leave a newer transaction's pointers and the PIN counters alone. */
  lemma {:induction false} ReplayForActiveGenerationOnlyFinishesIt(s: Store, ws: seq<Stamped>, g: Gen)
    requires Inv(s) && s.active == Some(g) && s.committed != Some(g)
    requires Lawful(s, ws) && AllServe(ws, g)
    ensures OnlyRetired(s, ApplyAll(s, ws))
  {
    if ws != [] {
      var n := |ws| - 1;
      ReplayForActiveGenerationOnlyFinishesIt(s, ws[..n], g);
      LawfulKeepsInv(s, ws[..n]);
      ReplayStepOnlyRetires(ws[n].op, ApplyAll(s, ws[..n]), ws[n].write, g);
    }
  }

  /** Replaying either request for the active generation keeps a newer transaction and the PIN counters. */
  lemma ReplaySparesNewerTransaction(s: Store, g: Gen)
    requires Inv(s) && s.active == Some(g)
    ensures CommittedBy(s, g) == Activated(s, g)
    ensures var o := Activated(s, g);
            && o.ok && o.store.active == s.active && o.store.attempts == s.attempts
            && (forall p | p in {Staging, Pending, Committed} :: Get(s, p) == Some(g) || Get(o.store, p) == Get(s, p))
            && (forall h :: h in s.bundles && h !in o.store.bundles ==> s.retiring == Some(h))
  {
    assert Get(s, Staging) == s.staging && Get(s, Pending) == s.pending && Get(s, Committed) == s.committed;
  }

  // ----- an interrupted activation converges

  /** The settled form of an activation of g: PIN attempts aside, what every continuation must reach. */
  function Settled(s: Store, g: Gen): Store {
    var gone := (if s.active.Some? && s.active != Some(g) then {s.active.value} else {})
              + (if s.retiring.Some? && s.retiring != Some(g) then {s.retiring.value} else {});
    Store(Some(g), None, None, None, None, s.bundles - gone, s.keys - gone, map[])
  }

  predicate Activating(s: Store, g: Gen) {
    Activatable(s, g) || (s.active == Some(g) && (s.committed == Some(g) || (s.staging.None? && s.pending.None? && s.committed.None?)))
  }

  lemma ActivationStepKeepsTarget(s: Store, w: Write, g: Gen)
    requires Inv(s) && Activating(s, g) && Legal(Activate(g), s, w)
    ensures Activating(Apply(s, w), g)
    ensures Settled(Apply(s, w), g) == Settled(s, g)
  {
    var t := Apply(s, w);
    LegalKeepsInv(Activate(g), s, w);
    match w {
      case SetPointer(q, h) =>
        if q == Active {
          assert s.active.None? || s.retiring == s.active;
        } else {
          assert q == Retiring && s.active == Some(h);
        }
      case ClearPointer(q) =>
        match q {
          case Staging =>
          case Pending =>
          case Committed =>
          case Retiring =>
        }
      case DropBundle(h) =>
      case DropKey(h) =>
      case ClearAttempts(_) =>
    }
    assert Settled(t, g).bundles == Settled(s, g).bundles;
    assert Settled(t, g).keys == Settled(s, g).keys;
  }

  lemma {:induction false} ActivationTraceKeepsTarget(s: Store, ws: seq<Stamped>, g: Gen)
    requires Inv(s) && Activating(s, g) && Lawful(s, ws)
    requires forall i :: 0 <= i < |ws| ==> ws[i].op == Activate(g)
    ensures Inv(ApplyAll(s, ws)) && Activating(ApplyAll(s, ws), g)
    ensures Settled(ApplyAll(s, ws), g) == Settled(s, g)
  {
    if ws != [] {
      var before := ws[..|ws| - 1];
      ActivationTraceKeepsTarget(s, before, g);
      var t := ApplyAll(s, before);
      LegalKeepsInv(Activate(g), t, ws[|ws| - 1].write);
      ActivationStepKeepsTarget(t, ws[|ws| - 1].write, g);
    }
  }

  lemma FinalizedSettles(s: Store, g: Gen)
    requires Inv(s) && s.active == Some(g) && s.committed == Some(g)
    ensures Finalized(s).(attempts := map[]) == Settled(s, g)
  {
    var t := Cleared(Cleared(Cleared(s, Staging, g), Pending, g), Committed, g);
    assert t == s.(staging := None, pending := None, committed := None);
    assert Finalized(s) == Retired(t);
  }

  lemma ActivatedSettles(s: Store, g: Gen)
    requires Inv(s) && Activatable(s, g)
    ensures Activated(s, g) == Outcome(true, Settled(s, g))
  {
    var t := PredecessorMarked(s).(active := Some(g), attempts := map[]);
    var u := Cleared(Cleared(Cleared(t, Staging, g), Pending, g), Committed, g);
    assert u == t.(staging := None, pending := None, committed := None);
    assert Activated(s, g) == Outcome(true, Retired(u));
    assert Retired(u).bundles == Settled(s, g).bundles;
    assert Retired(u).keys == Settled(s, g).keys;
  }

  /** A retry that meets no failure, followed by a setup check, reaches the settled form. */
  lemma RetrySettles(s: Store, g: Gen)
    requires Inv(s) && Activating(s, g)
    ensures Activated(s, g).ok
    ensures SetupChecked(Activated(s, g).store).(attempts := map[]) == Settled(s, g)
  {
    if Activatable(s, g) {
      ActivatedSettles(s, g);
    } else if s.committed == Some(g) {
      FinalizedSettles(s, g);
    } else {
      assert Activated(s, g) == Outcome(true, s);
      assert SetupChecked(s) == Retired(s);
    }
  }

  /** Cut an activation anywhere, retry it and check setup: same pointers, bundles and keys as no interruption. */
  lemma {:induction false} InterruptedActivationConverges(s: Store, ws: seq<Stamped>, g: Gen)
    requires Inv(s) && Activatable(s, g) && Lawful(s, ws)
    requires forall i :: 0 <= i < |ws| ==> ws[i].op == Activate(g)
    ensures var retried := Activated(ApplyAll(s, ws), g);
            && retried.ok && Activated(s, g).ok
            && SetupChecked(retried.store).(attempts := map[]) == Activated(s, g).store
  {
    ActivationTraceKeepsTarget(s, ws, g);
    RetrySettles(ApplyAll(s, ws), g);
    ActivatedSettles(s, g);
  }
}
