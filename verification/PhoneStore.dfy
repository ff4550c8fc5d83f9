/**
 The phone's durable pairing store: five generation pointers, generation bundles, approval keys
 and PIN attempt entries, and the one write at a time that its operations make.
 */
module PhoneStore {
  import opened PairingTypes

  datatype Pointer = Active | Staging | Pending | Committed | Retiring

  datatype PinKind = FourDigit | SixDigit

  /** A stored pairing generation. wellFormed stands for the version, key and PIN hash checks. */
  datatype Bundle = Bundle(id: Gen, share: Share, cli: Node, wellFormed: bool)

  datatype Store = Store(
    active: Option<Gen>,
    staging: Option<Gen>,
    pending: Option<Gen>,
    committed: Option<Gen>,
    retiring: Option<Gen>,
    bundles: map<Gen, Bundle>,
    keys: set<Gen>,
    attempts: map<PinKind, string>)

  const EMPTY := Store(None, None, None, None, None, map[], {}, map[])

  /** One durable write. Deleting something absent changes nothing. */
  datatype Write =
    | SetPointer(p: Pointer, g: Gen)
    | ClearPointer(p: Pointer)
    | PutBundle(b: Bundle)
    | DropBundle(g: Gen)
    | AddKey(g: Gen)
    | DropKey(g: Gen)
    | ClearAttempts(kind: PinKind)

  /** The operation on whose behalf a write is made. Check covers every read-mostly entry point. */
  datatype Op =
    | Begin(g: Gen)
    | Generate(g: Gen)
    | Publish(b: Bundle)
    | Commit(g: Gen)
    | Activate(g: Gen)
    | Abort(g: Gen)
    | Check

  function Get(s: Store, p: Pointer): Option<Gen> {
    match p
    case Active => s.active
    case Staging => s.staging
    case Pending => s.pending
    case Committed => s.committed
    case Retiring => s.retiring
  }

  function Point(s: Store, p: Pointer, v: Option<Gen>): Store {
    match p
    case Active => s.(active := v)
    case Staging => s.(staging := v)
    case Pending => s.(pending := v)
    case Committed => s.(committed := v)
    case Retiring => s.(retiring := v)
  }

  function Apply(s: Store, w: Write): Store {
    match w
    case SetPointer(p, g) => Point(s, p, Some(g))
    case ClearPointer(p) => Point(s, p, None)
    case PutBundle(b) => s.(bundles := s.bundles[b.id := b])
    case DropBundle(g) => s.(bundles := s.bundles - {g})
    case AddKey(g) => s.(keys := s.keys + {g})
    case DropKey(g) => s.(keys := s.keys - {g})
    case ClearAttempts(kind) => s.(attempts := s.attempts - {kind})
  }

  predicate Referenced(s: Store, g: Gen) {
    exists p :: Get(s, p) == Some(g)
  }

  /** A generation that can be activated: published, committed and not yet active. */
  predicate Activatable(s: Store, g: Gen) {
    && s.pending == Some(g)
    && s.committed == Some(g)
    && s.active != Some(g)
    && g in s.bundles
  }

  // ----- which writes the operations make, and when

  /** The operations that finish an activation or remove a retired generation. */
  predicate Housekeeps(op: Op, s: Store) {
    match op
    case Begin(_) => true
    case Abort(_) => true
    case Check => true
    case Commit(g) => s.active == Some(g)
    case Activate(g) => s.active == Some(g) || Activatable(s, g)
    case Generate(_) => false
    case Publish(_) => false
  }

  /** The operations that may discard a generation nobody committed. */
  predicate Discards(op: Op, s: Store) {
    && s.committed.None?
    && match op
       case Begin(_) => s.pending.None?
       case Abort(g) => (s.staging.None? || s.staging == Some(g)) && (s.pending.None? || s.pending == Some(g))
       case _ => false
  }

  predicate Removable(op: Op, s: Store, g: Gen) {
    && s.active != Some(g)
    && (|| (Housekeeps(op, s) && s.retiring == Some(g))
        || (Discards(op, s) && (s.staging == Some(g) || s.pending == Some(g))))
  }

  predicate Gone(s: Store, g: Option<Gen>) {
    g.None? || g == s.active || (g.value !in s.keys && g.value !in s.bundles)
  }

  /** A pointer still naming the generation whose activation is being finished. */
  predicate Leftover(op: Op, s: Store, p: Pointer) {
    Housekeeps(op, s) && s.active.Some? && s.committed == s.active && Get(s, p) == s.active
  }

  predicate LegalClear(op: Op, s: Store, p: Pointer) {
    match p
    case Staging =>
      || Leftover(op, s, Staging)
      || (Discards(op, s) && Gone(s, s.staging) && Gone(s, s.pending))
    case Pending =>
      || (Leftover(op, s, Pending) && s.staging != s.active)
      || (Discards(op, s) && s.staging.None? && Gone(s, s.pending))
    case Committed =>
      Leftover(op, s, Committed) && s.staging != s.active && s.pending != s.active
    case Retiring =>
      Housekeeps(op, s) && s.retiring != s.active && Gone(s, s.retiring)
    case Active => false
  }

  predicate LegalSet(op: Op, s: Store, p: Pointer, g: Gen) {
    match p
    case Staging =>
      && op == Begin(g) && s.staging.None? && s.pending.None? && s.committed.None?
      && s.active != Some(g) && s.retiring != Some(g)
    case Pending =>
      && op.Publish? && op.b.id == g && s.staging == Some(g)
      && g in s.bundles && s.bundles[g] == op.b
    case Committed =>
      op == Commit(g) && s.pending == Some(g) && s.active != Some(g) && g in s.bundles
    case Retiring =>
      && op.Activate? && Activatable(s, op.g) && s.active == Some(g)
      && (s.retiring.None? || s.retiring == Some(g))
    case Active =>
      op == Activate(g) && Activatable(s, g) && (s.active.None? || s.retiring == s.active)
  }

  /** The write w is one that operation op makes in durable state s. */
  predicate Legal(op: Op, s: Store, w: Write) {
    match w
    case SetPointer(p, g) => LegalSet(op, s, p, g)
    case ClearPointer(p) => LegalClear(op, s, p)
    case PutBundle(b) => op == Publish(b) && s.staging == Some(b.id) && b.wellFormed
    case DropBundle(g) => Removable(op, s, g) && g !in s.keys
    case AddKey(g) => op == Generate(g)
    case DropKey(g) => Removable(op, s, g)
    case ClearAttempts(_) =>
      op.Activate? && s.active == Some(op.g) && s.pending == s.active && s.committed == s.active
  }

  // ----- what holds in every durable state

  predicate PointersAgree(s: Store) {
    && (s.pending.Some? ==> s.staging.None? || s.staging == s.pending)
    && (s.committed.Some? ==>
          && (s.pending == s.committed || (s.pending.None? && s.active == s.committed))
          && (s.staging.None? || s.staging == s.committed))
    && (s.active.Some? && (s.pending == s.active || s.staging == s.active) ==> s.committed == s.active)
    && (s.retiring.Some? && s.retiring == s.active ==> s.committed.Some? && s.committed != s.active)
    && (s.retiring.Some? && s.retiring != s.active ==>
          s.retiring != s.staging && s.retiring != s.pending && s.retiring != s.committed)
  }

  /** No stored bundle is orphaned, and the active and committed generations have theirs. */
  predicate BundlesKept(s: Store) {
    && (s.active.Some? ==> s.active.value in s.bundles)
    && (s.committed.Some? ==> s.committed.value in s.bundles)
    && (forall g :: g in s.bundles ==> Referenced(s, g) && s.bundles[g].id == g && s.bundles[g].wellFormed)
  }

  predicate Inv(s: Store) {
    PointersAgree(s) && BundlesKept(s)
  }

  // ----- what each operation leaves behind when storage does not fail

  function Removed(s: Store, g: Gen): Store {
    s.(keys := s.keys - {g}, bundles := s.bundles - {g})
  }

  function Retired(s: Store): Store {
    if s.retiring.Some? && s.retiring != s.active
    then Removed(s, s.retiring.value).(retiring := None)
    else s
  }

  function Cleared(s: Store, p: Pointer, g: Gen): Store {
    if Get(s, p) == Some(g) then Point(s, p, None) else s
  }

  /** The pointers of an activated generation cleared and its predecessor removed. */
  function CleanedUp(s: Store, g: Gen): Store {
    Retired(Cleared(Cleared(Cleared(s, Staging, g), Pending, g), Committed, g))
  }

  function Finalized(s: Store): Store {
    if s.active.Some? && s.committed == s.active then CleanedUp(s, s.active.value) else s
  }

  /** Whether an operation succeeds, and the durable state it leaves. */
  datatype Outcome = Outcome(ok: bool, store: Store)

  /** The staged and published generations, each once. */
  function Candidates(s: Store): seq<Gen> {
    var staged := if s.staging.Some? then [s.staging.value] else [];
    if s.pending.Some? && s.pending != s.staging then staged + [s.pending.value] else staged
  }

  /** Every generation of gs removed, except the active one. */
  function DropAll(s: Store, gs: seq<Gen>): Store {
    if gs == [] then s
    else
      var t := DropAll(s, gs[..|gs| - 1]);
      var g := gs[|gs| - 1];
      if s.active == Some(g) then t else Removed(t, g)
  }

  function Discarded(s: Store): Outcome {
    var t := Finalized(s);
    if t.committed.Some? then Outcome(false, t)
    else Outcome(true, DropAll(t, Candidates(t)).(staging := None, pending := None))
  }

  function Begun(s: Store, g: Gen): Outcome {
    var t := Finalized(s);
    if t.pending.Some? then Outcome(false, t)
    else
      var d := Discarded(t);
      if d.ok then Outcome(true, d.store.(staging := Some(g))) else d
  }

  function Published(s: Store, b: Bundle, alias: Gen): Outcome {
    if s.staging == Some(b.id) && alias == b.id && b.wellFormed
    then Outcome(true, s.(bundles := s.bundles[b.id := b], pending := Some(b.id)))
    else Outcome(false, s)
  }

  predicate Stored(s: Store, g: Gen) {
    g in s.bundles && s.bundles[g].id == g
  }

  predicate Loadable(s: Store, g: Gen) {
    Stored(s, g) && s.bundles[g].wellFormed
  }

  function CommittedBy(s: Store, g: Gen): Outcome {
    if s.active == Some(g) then
      if Loadable(s, g) then Outcome(true, Finalized(s)) else Outcome(false, s)
    else if s.committed == Some(g) then Outcome(Loadable(s, g), s)
    else if s.pending == Some(g) && Loadable(s, g) then Outcome(true, s.(committed := Some(g)))
    else Outcome(false, s)
  }

  function PredecessorMarked(s: Store): Store {
    if s.active.None? then s
    else (if s.retiring == s.active then s else Retired(s)).(retiring := s.active)
  }

  function Activated(s: Store, g: Gen): Outcome {
    if s.active == Some(g) then
      if Loadable(s, g) then Outcome(true, Finalized(s)) else Outcome(false, s)
    else if s.pending == Some(g) && s.committed == Some(g) && Loadable(s, g) then
      Outcome(true, CleanedUp(PredecessorMarked(s).(active := Some(g), attempts := map[]), g))
    else Outcome(false, s)
  }

  function Aborted(s: Store, g: Gen): Outcome {
    if (s.staging.Some? && s.staging != Some(g)) || (s.pending.Some? && s.pending != Some(g))
    then Outcome(false, s)
    else Discarded(s)
  }

  function SetupChecked(s: Store): Store {
    Retired(Finalized(s))
  }
}
