/**
 The phone's storage operations, as sequences of durable writes that may each fail. The storage
 lock makes each operation atomic among the phone's own operations.
 */
module GenerationStores {
  import opened PairingTypes
  import opened PhoneStore
  import opened PhoneHistory

  /** later is earlier followed by writes made for op only. */
  ghost predicate MadeFor(op: Op, earlier: seq<Stamped>, later: seq<Stamped>) {
    && earlier <= later
    && (forall i :: |earlier| <= i < |later| ==> later[i].op == op)
  }

  lemma {:induction false} LawfulExtended(s: Store, ws: seq<Stamped>, x: Stamped)
    requires Lawful(s, ws) && Legal(x.op, ApplyAll(s, ws), x.write)
    ensures Lawful(s, ws + [x]) && ApplyAll(s, ws + [x]) == Apply(ApplyAll(s, ws), x.write)
    ensures MadeFor(x.op, ws, ws + [x])
  {
    assert (ws + [x])[..|ws|] == ws;
  }

  function Elements(o: Option<Gen>): set<Gen> {
    if o.Some? then {o.value} else {}
  }

  /** t has every bundle and approval key of s but, perhaps, those of the given generations, and no others. */
  predicate Kept(s: Store, t: Store, but: set<Gen>) {
    && (forall h :: h in s.bundles && h !in but ==> h in t.bundles)
    && (forall h :: h in t.bundles ==> h in s.bundles && t.bundles[h] == s.bundles[h])
    && s.keys - but <= t.keys <= s.keys
  }

  /** Neither the bundle nor the approval key of the generation named is left. */
  predicate Absent(s: Store, named: Option<Gen>) {
    named.Some? ==> named.value !in s.bundles && named.value !in s.keys
  }

  lemma {:induction false} DropAllKeeps(s: Store, gs: seq<Gen>, but: set<Gen>)
    requires forall g :: g in gs && s.active != Some(g) ==> g in but
    ensures DropAll(s, gs) == s.(bundles := DropAll(s, gs).bundles, keys := DropAll(s, gs).keys)
    ensures Kept(s, DropAll(s, gs), but)
  {
    if gs != [] {
      DropAllKeeps(s, gs[..|gs| - 1], but);
    }
  }

  const PIN_KINDS := [FourDigit, SixDigit]

  /** The pointers that finishing an activation clears, in order. */
  const LEFTOVERS := [Staging, Pending, Committed]

  /** s with the first n leftover pointers cleared where they name g. */
  function FirstCleared(s: Store, n: nat, g: Gen): Store
    requires n <= 3
  {
    if n == 0 then s else Cleared(FirstCleared(s, n - 1, g), LEFTOVERS[n - 1], g)
  }

  lemma LeftoverLegal(op: Op, s: Store, n: nat, g: Gen)
    requires n < 3 && Housekeeps(op, s) && s.active == Some(g) && s.committed == Some(g)
    ensures var t := FirstCleared(s, n, g);
            && t.active == Some(g) && Housekeeps(op, t)
            && t.(staging := None, pending := None, committed := None) == s.(staging := None, pending := None, committed := None)
            && (Get(t, LEFTOVERS[n]) == Some(g) ==> Legal(op, t, ClearPointer(LEFTOVERS[n])))
  {
    match n {
      case 0 =>
      case 1 => assert FirstCleared(s, 0, g) == s;
      case 2 =>
        assert FirstCleared(s, 0, g) == s;
        assert FirstCleared(s, 1, g) == Cleared(s, Staging, g);
    }
  }

  /** t is s with some of the leftover pointers cleared. */
  predicate ClearedOnly(s: Store, t: Store) {
    && t == s.(staging := t.staging, pending := t.pending, committed := t.committed)
    && (t.staging.None? || t.staging == s.staging)
    && (t.pending.None? || t.pending == s.pending)
    && (t.committed.None? || t.committed == s.committed)
  }

  lemma AllCleared(s: Store, g: Gen)
    requires Inv(s) && s.active == Some(g) && s.committed == Some(g)
    ensures FirstCleared(s, 3, g) == s.(staging := None, pending := None, committed := None)
    ensures CleanedUp(s, g) == Retired(FirstCleared(s, 3, g))
  {
    assert FirstCleared(s, 0, g) == s;
    assert FirstCleared(s, 1, g) == Cleared(s, Staging, g);
    assert FirstCleared(s, 2, g) == Cleared(Cleared(s, Staging, g), Pending, g);
  }

  lemma CandidatesNamed(s: Store)
    ensures forall g :: g in Candidates(s) ==> s.staging == Some(g) || s.pending == Some(g)
  {
  }

  lemma CandidatesGone(s: Store)
    ensures var t := DropAll(s, Candidates(s));
            && t == s.(bundles := t.bundles, keys := t.keys)
            && Gone(t, s.staging) && Gone(t, s.pending)
  {
    CandidatesDropped(s);
  }

  class GenerationStore {
    var active: Option<Gen>
    var staging: Option<Gen>
    var pending: Option<Gen>
    var committed: Option<Gen>
    var retiring: Option<Gen>
    var bundles: map<Gen, Bundle>
    var keys: set<Gen>
    var attempts: map<PinKind, string>
    /** Whether the key store may fail, before or after a write takes effect. */
    const faulty: bool
    ghost const origin: Store
    /** Every durable write that took effect, with the operation that made it. */
    ghost var log: seq<Stamped>

    function View(): Store
      reads this
    {
      Store(active, staging, pending, committed, retiring, bundles, keys, attempts)
    }

    ghost predicate Valid()
      reads this
    {
      && Inv(origin) && Lawful(origin, log)
      && View() == ApplyAll(origin, log) && Inv(View())
    }

    constructor (faulty: bool)
      ensures Valid() && View() == EMPTY && log == [] && this.faulty == faulty && origin == EMPTY
    {
      active, staging, pending, committed, retiring := None, None, None, None, None;
      bundles, keys, attempts := map[], {}, map[];
      this.faulty := faulty;
      origin, log := EMPTY, [];
    }

    // ----- the key store

    method Load(p: Pointer) returns (r: Result<Option<Gen>>)
      ensures r.Ok? ==> r.value == Get(View(), p)
      ensures r.Err? ==> faulty && r.error == StorageFailure
    {
      var fails := *;
      if faulty && fails {
        return Err(StorageFailure);
      }
      match p {
        case Active => r := Ok(active);
        case Staging => r := Ok(staging);
        case Pending => r := Ok(pending);
        case Committed => r := Ok(committed);
        case Retiring => r := Ok(retiring);
      }
    }

    /** The bundle stored under g, if it carries that id. */
    method LoadGeneration(g: Gen) returns (r: Result<Bundle>)
      ensures r.Ok? ==> Stored(View(), g) && r.value == bundles[g]
      ensures r.Err? ==> (faulty && r.error == StorageFailure) || (!Stored(View(), g) && r.error == Refused)
    {
      var fails := *;
      if faulty && fails {
        return Err(StorageFailure);
      }
      if g !in bundles || bundles[g].id != g {
        return Err(Refused);
      }
      r := Ok(bundles[g]);
    }

    /** And once its metadata checks out, too. */
    method LoadBundle(g: Gen) returns (r: Result<Bundle>)
      ensures r.Ok? ==> Loadable(View(), g) && r.value == bundles[g]
      ensures r.Err? ==> (faulty && r.error == StorageFailure) || (!Loadable(View(), g) && r.error == Refused)
    {
      var stored :- LoadGeneration(g);
      r := if stored.wellFormed then Ok(stored) else Err(Refused);
    }

    method Write(ghost op: Op, w: PhoneStore.Write) returns (r: Status)
      requires Valid() && Legal(op, View(), w)
      modifies this
      ensures Valid() && MadeFor(op, old(log), log)
      ensures View() == old(View()) || View() == Apply(old(View()), w)
      ensures r.Ok? ==> View() == Apply(old(View()), w)
      ensures r.Err? ==> faulty && r.error == StorageFailure
    {
      var failsBefore, failsAfter := *, *;
      if faulty && failsBefore {
        return Err(StorageFailure);
      }
      LawfulExtended(origin, log, Stamped(op, w));
      LegalKeepsInv(op, View(), w);
      Perform(w);
      log := log + [Stamped(op, w)];
      r := if faulty && failsAfter then Err(StorageFailure) else DONE;
    }

    method Perform(w: PhoneStore.Write)
      modifies this
      ensures View() == Apply(old(View()), w) && log == old(log)
    {
      match w {
        case SetPointer(p, g) => Point(p, Some(g));
        case ClearPointer(p) => Point(p, None);
        case PutBundle(b) => bundles := bundles[b.id := b];
        case DropBundle(g) => bundles := bundles - {g};
        case AddKey(g) => keys := keys + {g};
        case DropKey(g) => keys := keys - {g};
        case ClearAttempts(kind) => attempts := attempts - {kind};
      }
    }

    method Point(p: Pointer, v: Option<Gen>)
      modifies this
      ensures View() == PhoneStore.Point(old(View()), p, v) && log == old(log)
    {
      match p {
        case Active => active := v;
        case Staging => staging := v;
        case Pending => pending := v;
        case Committed => committed := v;
        case Retiring => retiring := v;
      }
    }

    // ----- removing generations

    method RemoveGeneration(ghost op: Op, g: Gen) returns (r: Status)
      requires Valid() && Removable(op, View(), g)
      modifies this
      ensures Valid() && MadeFor(op, old(log), log)
      ensures View() == old(View()).(bundles := bundles, keys := keys)
      ensures r.Ok? ==> View() == Removed(old(View()), g) && g !in bundles && g !in keys
      ensures bundles == old(bundles) || bundles == old(bundles) - {g}
      ensures keys == old(keys) || keys == old(keys) - {g}
      ensures g in keys ==> bundles == old(bundles)
      ensures r.Err? ==> faulty && r.error == StorageFailure
    {
      var _ :- Write(op, DropKey(g));
      r := Write(op, DropBundle(g));
    }

    method CleanupRetiring(ghost op: Op) returns (r: Status)
      requires Valid() && Housekeeps(op, View())
      modifies this
      ensures Valid() && MadeFor(op, old(log), log)
      ensures View() == old(View()).(retiring := retiring, bundles := bundles, keys := keys)
      ensures retiring.None? || retiring == old(retiring)
      ensures Kept(old(View()), View(), Elements(old(retiring)))
      ensures r.Ok? ==> View() == Retired(old(View())) && retiring.None? && Absent(View(), old(retiring))
      ensures !faulty ==> View() == Retired(old(View()))
      ensures r.Err? ==> (faulty && r.error == StorageFailure) || (retiring.Some? && retiring == active && r.error == Refused)
    {
      var retired :- Load(Retiring);
      if retired.None? {
        return DONE;
      }
      var current :- Load(Active);
      if current == retired {
        return Err(Refused);
      }
      var _ :- RemoveGeneration(op, retired.value);
      r := Write(op, ClearPointer(Retiring));
    }

    /** Clears the leftover pointers of the active generation, in order. */
    method ClearMarkers(ghost op: Op, g: Gen) returns (r: Status)
      requires Valid() && Housekeeps(op, View())
      requires active == Some(g) && committed == Some(g)
      modifies this
      ensures Valid() && MadeFor(op, old(log), log)
      ensures ClearedOnly(old(View()), View()) && Housekeeps(op, View())
      ensures r.Ok? ==> View() == FirstCleared(old(View()), 3, g)
      ensures r.Err? ==> faulty && r.error == StorageFailure
    {
      ghost var before := View();
      for i := 0 to |LEFTOVERS|
        invariant Valid() && MadeFor(op, old(log), log)
        invariant View() == FirstCleared(before, i, g)
        invariant ClearedOnly(before, View()) && Housekeeps(op, View())
      {
        LeftoverLegal(op, before, i, g);
        var stored :- Load(LEFTOVERS[i]);
        if stored == Some(g) {
          var _ :- Write(op, ClearPointer(LEFTOVERS[i]));
        }
        assert View() == FirstCleared(before, i + 1, g);
      }
      r := DONE;
    }

    /** Clears the leftover pointers of the active generation, then tries to remove its predecessor. */
    method CleanupActivationMetadata(ghost op: Op, g: Gen) returns (r: Status)
      requires Valid() && Housekeeps(op, View())
      requires active == Some(g) && committed == Some(g)
      modifies this
      ensures Valid() && MadeFor(op, old(log), log)
      ensures active == old(active) && attempts == old(attempts)
      ensures (staging.None? || staging == old(staging)) && (pending.None? || pending == old(pending))
      ensures retiring.None? || retiring == old(retiring)
      ensures Kept(old(View()), View(), Elements(old(retiring)))
      ensures r.Ok? ==> staging.None? && pending.None? && committed.None?
      ensures r.Err? ==> retiring == old(retiring) && bundles == old(bundles) && keys == old(keys)
      ensures !faulty ==> View() == CleanedUp(old(View()), g)
      ensures r.Err? ==> faulty && r.error == StorageFailure
    {
      AllCleared(View(), g);
      var _ :- ClearMarkers(op, g);
      var _ := CleanupRetiring(op);
      r := DONE;
    }

    /** Finishes an activation that was cut after its pointer flip. */
    method FinalizeActiveActivation(ghost op: Op) returns (r: Status)
      requires Valid()
      requires active.Some? && committed == active ==> Housekeeps(op, View())
      modifies this
      ensures Valid() && MadeFor(op, old(log), log)
      ensures active == old(active) && attempts == old(attempts)
      ensures (staging.None? || staging == old(staging)) && (pending.None? || pending == old(pending))
      ensures retiring.None? || retiring == old(retiring)
      ensures r.Ok? ==> committed.None? || committed != active
      ensures r.Ok? && !(old(committed).Some? && old(committed) == active) ==> View() == old(View())
      ensures !faulty ==> View() == Finalized(old(View()))
      ensures r.Err? ==> faulty && r.error == StorageFailure
    {
      var current :- Load(Active);
      var marked :- Load(Committed);
      if current.Some? && marked == current {
        r := CleanupActivationMetadata(op, current.value);
      } else {
        r := DONE;
      }
    }

    // ----- setting up a new generation

    /** Discards whatever was staged or published and never committed. */
    method ClearUncommittedPending(ghost op: Op) returns (r: Status)
      requires Valid() && (op.Begin? || op.Abort?)
      requires op.Begin? ==> pending.None? || (committed.Some? && committed == active)
      requires op.Abort? ==> (staging.None? || staging == Some(op.g)) && (pending.None? || pending == Some(op.g))
      modifies this
      ensures Valid() && MadeFor(op, old(log), log)
      ensures active == old(active) && attempts == old(attempts)
      ensures (staging.None? || staging == old(staging)) && (pending.None? || pending == old(pending))
      ensures retiring.None? || retiring == old(retiring)
      ensures r.Ok? ==> staging.None? && pending.None? && committed.None?
      ensures r.Ok? && old(staging) != active ==> Absent(View(), old(staging))
      ensures r.Ok? && old(pending) != active ==> Absent(View(), old(pending))
      ensures !faulty ==> Discarded(old(View())) == Outcome(r.Ok?, View())
      ensures !faulty ==> (r.Ok? <==> old(committed).None? || old(committed) == active)
      ensures r.Err? ==> (faulty && r.error == StorageFailure) || (committed.Some? && r.error == Refused)
    {
      var _ :- FinalizeActiveActivation(op);
      var marked :- Load(Committed);
      if marked.Some? {
        return Err(Refused);
      }
      r := DiscardCandidates(op);
    }

    method DiscardCandidates(ghost op: Op) returns (r: Status)
      requires Valid() && Discards(op, View())
      modifies this
      ensures Valid() && MadeFor(op, old(log), log)
      ensures ClearedOnly(old(View()), View().(bundles := old(bundles), keys := old(keys))) && committed.None?
      ensures r.Ok? ==> View() == DropAll(old(View()), Candidates(old(View()))).(staging := None, pending := None)
      ensures r.Ok? && old(staging) != active ==> Absent(View(), old(staging))
      ensures r.Ok? && old(pending) != active ==> Absent(View(), old(pending))
      ensures r.Err? ==> faulty && r.error == StorageFailure
    {
      CandidatesGone(View());
      CandidatesNamed(View());
      var current :- Load(Active);
      var candidates :- CandidateList();
      var _ :- RemoveCandidates(op, candidates, current);
      r := ForgetCandidates(op);
    }

    method ForgetCandidates(ghost op: Op) returns (r: Status)
      requires Valid() && Discards(op, View()) && Gone(View(), staging) && Gone(View(), pending)
      modifies this
      ensures Valid() && MadeFor(op, old(log), log)
      ensures ClearedOnly(old(View()), View()) && committed.None?
      ensures r.Ok? ==> View() == old(View()).(staging := None, pending := None)
      ensures r.Err? ==> faulty && r.error == StorageFailure
    {
      var _ :- Write(op, ClearPointer(Staging));
      r := Write(op, ClearPointer(Pending));
    }

    method CandidateList() returns (r: Result<seq<Gen>>)
      ensures r.Ok? ==> r.value == Candidates(View())
      ensures r.Err? ==> faulty && r.error == StorageFailure
    {
      var staged :- Load(Staging);
      var published :- Load(Pending);
      var candidates := if staged.Some? then [staged.value] else [];
      if published.Some? && published != staged {
        candidates := candidates + [published.value];
      }
      r := Ok(candidates);
    }

    method RemoveUnlessActive(ghost op: Op, g: Gen, current: Option<Gen>) returns (r: Status)
      requires Valid() && Discards(op, View()) && current == active && (staging == Some(g) || pending == Some(g))
      modifies this
      ensures Valid() && MadeFor(op, old(log), log)
      ensures View() == old(View()).(bundles := bundles, keys := keys)
      ensures Kept(old(View()), View(), {g} - Elements(current))
      ensures r.Ok? ==> View() == if Some(g) == current then old(View()) else Removed(old(View()), g)
      ensures r.Err? ==> faulty && r.error == StorageFailure
    {
      r := DONE;
      if Some(g) != current {
        r := RemoveGeneration(op, g);
      }
    }

    /** Removes every candidate but the active generation. */
    method RemoveCandidates(ghost op: Op, candidates: seq<Gen>, current: Option<Gen>) returns (r: Status)
      requires Valid() && Discards(op, View()) && current == active
      requires forall g :: g in candidates ==> staging == Some(g) || pending == Some(g)
      modifies this
      ensures Valid() && MadeFor(op, old(log), log)
      ensures View() == old(View()).(bundles := bundles, keys := keys)
      ensures Kept(old(View()), View(), Elements(staging) + Elements(pending) - Elements(current))
      ensures r.Ok? ==> View() == DropAll(old(View()), candidates)
      ensures r.Err? ==> faulty && r.error == StorageFailure
    {
      ghost var before, others := View(), Elements(staging) + Elements(pending) - Elements(current);
      for i := 0 to |candidates|
        invariant Valid() && MadeFor(op, old(log), log)
        invariant View() == DropAll(before, candidates[..i])
      {
        assert candidates[..i + 1][..i] == candidates[..i];
        DropAllKeeps(before, candidates[..i], others);
        var _ :- RemoveUnlessActive(op, candidates[i], current);
      }
      assert candidates[..|candidates|] == candidates;
      DropAllKeeps(before, candidates, others);
      r := DONE;
    }

    /** Records a fresh generation as staging; refused while another one is published. */
    method BeginPendingPairing(g: Gen) returns (r: Status)
      requires Valid() && active != Some(g) && retiring != Some(g)
      modifies this
      ensures Valid() && MadeFor(Begin(g), old(log), log)
      ensures active == old(active) && attempts == old(attempts)
      ensures r.Ok? ==> staging == Some(g) && pending.None? && committed.None?
      ensures r.Ok? && old(staging) != active && old(staging) != Some(g) ==> Absent(View(), old(staging))
      ensures !faulty ==>
                (r.Ok? <==> (old(committed).None? && old(pending).None?) || (active.Some? && old(committed) == active))
      ensures !faulty ==> Begun(old(View()), g) == Outcome(r.Ok?, View())
    {
      var _ :- FinalizeActiveActivation(Begin(g));
      var published :- Load(Pending);
      if published.Some? {
        return Err(Refused);
      }
      r := StageAfresh(g);
    }

    method StageAfresh(g: Gen) returns (r: Status)
      requires Valid() && active != Some(g) && retiring != Some(g) && pending.None?
      modifies this
      ensures Valid() && MadeFor(Begin(g), old(log), log)
      ensures active == old(active) && attempts == old(attempts)
      ensures r.Ok? ==> staging == Some(g) && pending.None? && committed.None?
      ensures r.Ok? && old(staging) != active && old(staging) != Some(g) ==> Absent(View(), old(staging))
      ensures !faulty ==> (r.Ok? <==> old(committed).None? || old(committed) == active)
      ensures !faulty ==>
                var d := Discarded(old(View())); Outcome(r.Ok?, View()) == if d.ok then Outcome(true, d.store.(staging := Some(g))) else d
    {
      var _ :- ClearUncommittedPending(Begin(g));
      r := Write(Begin(g), SetPointer(Staging, g));
    }

    /** The platform key store generates the approval key outside the storage lock. */
    method GenerateApprovalKey(g: Gen) returns (r: Status)
      requires Valid()
      modifies this
      ensures Valid() && MadeFor(Generate(g), old(log), log)
      ensures View() == old(View()).(keys := keys) && old(keys) <= keys <= old(keys) + {g}
      ensures r.Ok? ==> g in keys
      ensures r.Err? ==> faulty && r.error == StorageFailure
    {
      r := Write(Generate(g), AddKey(g));
    }

    method StorePendingGeneration(b: Bundle, alias: Gen) returns (r: Status)
      requires Valid()
      modifies this
      ensures Valid() && MadeFor(Publish(b), old(log), log)
      ensures active == old(active) && attempts == old(attempts)
      ensures r.Ok? ==> pending == Some(b.id) && staging == Some(b.id) && b.id in bundles && bundles[b.id] == b
      ensures r.Ok? ==> View() == old(View()).(pending := Some(b.id), bundles := old(bundles)[b.id := b])
      ensures r.Ok? ==> old(staging) == Some(b.id) && alias == b.id && b.wellFormed
      ensures !faulty && old(staging) == Some(b.id) && alias == b.id && b.wellFormed ==> r.Ok?
      ensures !faulty && r.Err? ==> r.error == Refused && View() == old(View())
      ensures r.Ok? || !faulty ==> Published(old(View()), b, alias) == Outcome(r.Ok?, View())
    {
      ghost var op := Publish(b);
      var staged :- Load(Staging);
      if staged != Some(b.id) || alias != b.id || !b.wellFormed {
        return Err(Refused);
      }
      var _ :- Write(op, PutBundle(b));
      var _ :- LoadBundle(b.id);
      r := Write(op, SetPointer(Pending, b.id));
    }

    method AbortUnstartedPairing(g: Gen) returns (r: Status)
      requires Valid()
      modifies this
      ensures Valid() && MadeFor(Abort(g), old(log), log)
      ensures active == old(active) && attempts == old(attempts)
      ensures r.Ok? ==> staging.None? && pending.None? && committed.None?
      ensures r.Ok? ==> old(staging) in {None, Some(g)} && old(pending) in {None, Some(g)}
      ensures r.Ok? && (old(staging) == Some(g) || old(pending) == Some(g)) && active != Some(g) ==> g !in bundles && g !in keys
      ensures !faulty ==> (r.Ok? <==> && old(staging) in {None, Some(g)} && old(pending) in {None, Some(g)}
                                      && (old(committed).None? || old(committed) == active))
      ensures !(old(staging) in {None, Some(g)} && old(pending) in {None, Some(g)}) ==> View() == old(View())
      ensures !faulty ==> Aborted(old(View()), g) == Outcome(r.Ok?, View())
    {
      var order := [Staging, Pending];
      for i := 0 to |order|
        invariant View() == old(View()) && log == old(log)
        invariant i >= 1 ==> staging.None? || staging == Some(g)
        invariant i >= 2 ==> pending.None? || pending == Some(g)
      {
        var stored :- Load(order[i]);
        if stored.Some? && stored != Some(g) {
          return Err(Refused);
        }
      }
      r := ClearUncommittedPending(Abort(g));
    }

    // ----- the desktop's transitions

    method CommitPendingGeneration(g: Gen) returns (r: Status)
      requires Valid()
      modifies this
      ensures Valid() && MadeFor(Commit(g), old(log), log)
      ensures active == old(active) && attempts == old(attempts)
      ensures r.Ok? ==> committed == Some(g) || active == Some(g)
      ensures r.Ok? ==> Some(g) in {old(active), old(committed), old(pending)}
      ensures !faulty ==> (r.Ok? <==> Loadable(old(View()), g) && Some(g) in {old(active), old(committed), old(pending)})
      ensures r.Ok? && active != Some(g) ==> CommittedBy(old(View()), g) == Outcome(true, View())
      ensures !faulty ==> CommittedBy(old(View()), g) == Outcome(r.Ok?, View())
      ensures r.Err? ==> (faulty && r.error == StorageFailure) || (r.error == Refused && !CommittedBy(View(), g).ok)
    {
      ghost var op := Commit(g);
      var current :- Load(Active);
      if current == Some(g) {
        var _ :- LoadBundle(g);
        r := FinalizeActiveActivation(op);
        return;
      }
      var marked :- Load(Committed);
      if marked == Some(g) {
        var _ :- LoadBundle(g);
        return DONE;
      }
      var published :- Load(Pending);
      if published != Some(g) {
        return Err(Refused);
      }
      var _ :- LoadBundle(g);
      r := Write(op, SetPointer(Committed, g));
    }

    /** Flips the active pointer to a committed generation and removes its predecessor. */
    method ActivateGeneration(g: Gen) returns (r: Result<Bundle>)
      requires Valid()
      modifies this
      ensures Valid() && MadeFor(Activate(g), old(log), log)
      ensures old(active) == Some(g) ==> active == Some(g) && attempts == old(attempts)
      ensures r.Ok? ==> active == Some(g) && g in old(bundles) && r.value == old(bundles)[g]
      ensures r.Ok? ==> staging != Some(g) && pending != Some(g) && committed != Some(g)
      ensures r.Ok? ==> old(active) == Some(g) || (old(pending) == Some(g) && old(committed) == Some(g))
      ensures !faulty ==> (r.Ok? <==> && Loadable(old(View()), g)
                                      && (old(active) == Some(g) || (old(pending) == Some(g) && old(committed) == Some(g))))
      ensures !faulty && r.Ok? && old(active) != Some(g) ==> attempts == map[] && retiring.None? && Absent(View(), old(active))
      ensures !faulty ==> Activated(old(View()), g) == Outcome(r.Ok?, View())
      ensures r.Err? ==> (faulty && r.error == StorageFailure) || (r.error == Refused && !Activated(View(), g).ok)
    {
      ghost var op := Activate(g);
      var current :- Load(Active);
      if current == Some(g) {
        var stored :- LoadBundle(g);
        var _ :- FinalizeActiveActivation(op);
        return Ok(stored);
      }
      var published :- Load(Pending);
      var marked :- Load(Committed);
      if published != Some(g) || marked != Some(g) {
        return Err(Refused);
      }
      var stored :- LoadBundle(g);
      var _ :- ActivateCommitted(g);
      r := Ok(stored);
    }

    method ActivateCommitted(g: Gen) returns (r: Status)
      requires Valid() && Activatable(View(), g)
      modifies this
      ensures Valid() && MadeFor(Activate(g), old(log), log)
      ensures r.Ok? ==> active == Some(g) && staging.None? && pending.None? && committed.None?
      ensures !faulty ==> r.Ok? && Activated(old(View()), g) == Outcome(true, View())
      ensures r.Err? ==> faulty && r.error == StorageFailure
    {
      var _ :- RetirePredecessor(g);
      ghost var t := View();
      var _ :- FlipActive(g);
      assert !faulty ==> View() == t.(active := Some(g), attempts := map[]);
      r := CleanupActivationMetadata(Activate(g), g);
    }

    /** The pointer flip, after which PIN attempts counted against the predecessor are forgotten. */
    method FlipActive(g: Gen) returns (r: Status)
      requires Valid() && Activatable(View(), g) && (active.None? || retiring == active)
      modifies this
      ensures Valid() && MadeFor(Activate(g), old(log), log)
      ensures r.Ok? ==> View() == old(View()).(active := Some(g), attempts := attempts)
      ensures r.Err? ==> attempts == old(attempts)
      ensures !faulty ==> r.Ok? && attempts == map[]
      ensures r.Err? ==> faulty && r.error == StorageFailure
    {
      ghost var op := Activate(g);
      var _ :- Write(op, SetPointer(Active, g));
      for i := 0 to |PIN_KINDS|
        invariant Valid() && MadeFor(op, old(log), log)
        invariant View() == old(View()).(active := Some(g), attempts := attempts)
        invariant !faulty ==> forall j :: 0 <= j < i ==> PIN_KINDS[j] !in attempts
      {
        var _ := Write(op, ClearAttempts(PIN_KINDS[i]));
      }
      assert PIN_KINDS[0] == FourDigit && PIN_KINDS[1] == SixDigit;
      assert forall kind :: kind in attempts ==> kind == FourDigit || kind == SixDigit;
      r := DONE;
    }

    /** Marks the generation about to lose the active pointer, removing an older retired one first. */
    method RetirePredecessor(g: Gen) returns (r: Status)
      requires Valid() && Activatable(View(), g)
      modifies this
      ensures Valid() && MadeFor(Activate(g), old(log), log)
      ensures View() == old(View()).(retiring := retiring, bundles := bundles, keys := keys)
      ensures g in bundles && bundles[g] == old(bundles)[g]
      ensures r.Ok? && active.Some? ==> retiring == active
      ensures !faulty ==> r.Ok? && View() == PredecessorMarked(old(View()))
      ensures r.Err? ==> faulty && r.error == StorageFailure
    {
      ghost var op := Activate(g);
      var predecessor :- Load(Active);
      if predecessor.Some? {
        var older :- Load(Retiring);
        if older.Some? && older != predecessor {
          var _ :- CleanupRetiring(op);
        }
        var _ :- Write(op, SetPointer(Retiring, predecessor.value));
      }
      r := DONE;
    }

    // ----- checks

    /** Which desktop may ask about g: the one recorded by a generation that is active, pending or committed. */
    method GenerationCliNode(g: Gen) returns (r: Result<Option<Node>>)
      requires Valid()
      modifies this
      ensures Valid() && MadeFor(Check, old(log), log)
      ensures active == old(active) && attempts == old(attempts)
      ensures !faulty ==> View() == Finalized(old(View()))
      ensures r.Ok? && r.value.Some? ==> Stored(View(), g) && r.value.value == bundles[g].cli
      ensures r.Ok? ==> (r.value.Some? <==> active == Some(g) || pending == Some(g) || committed == Some(g))
      ensures !faulty && active != Some(g) && pending != Some(g) && committed != Some(g) ==> r == Ok(None)
      ensures r.Err? ==> (faulty && r.error == StorageFailure) || (!Stored(View(), g) && r.error == Refused)
    {
      var _ :- FinalizeActiveActivation(Check);
      var referenced := false;
      var order := [Active, Pending, Committed];
      for i := 0 to |order|
        invariant Valid() && MadeFor(Check, old(log), log)
        invariant active == old(active) && attempts == old(attempts)
        invariant !faulty ==> View() == Finalized(old(View()))
        invariant referenced <==> exists j :: 0 <= j < i && Get(View(), order[j]) == Some(g)
      {
        var stored :- Load(order[i]);
        referenced := referenced || stored == Some(g);
      }
      assert Get(View(), order[0]) == active && Get(View(), order[1]) == pending && Get(View(), order[2]) == committed;
      if !referenced {
        return Ok(None);
      }
      var stored :- LoadGeneration(g);
      r := Ok(Some(stored.cli));
    }

    method IsSetup() returns (r: Result<bool>)
      requires Valid()
      modifies this
      ensures Valid() && MadeFor(Check, old(log), log)
      ensures active == old(active) && attempts == old(attempts)
      ensures r.Ok? ==> (r.value <==> active.Some?)
      ensures !faulty ==> r.Ok? && View() == SetupChecked(old(View()))
      ensures !faulty && old(retiring) != active ==> retiring.None? && Absent(View(), old(retiring))
    {
      var _ :- FinalizeActiveActivation(Check);
      var _ := CleanupRetiring(Check);
      var current :- Load(Active);
      if current.Some? {
        var _ :- LoadBundle(current.value);
      }
      r := Ok(current.Some?);
    }
  }
}
