# Ferusa: verified model of pairing, PIN gating and approvals

Ferusa is a password manager whose vault key is combined from a master password on the desktop and a key share held
by a phone. This project models the parts of it that have to survive crashes, lost messages and concurrency, and
proves what they are for:

* **The replacement of the phone-held share.** The desktop walks a transaction file through four phases over live,
  pending and rollback files; the phone walks a generation through staging, pending, committed, active and retiring.
  Every durable change is one step, so every state of a run is a possible crash.
* **The PIN cooldown and attempt gate**, over a clock that restarts on reboot and with concurrent submissions.
* **Session generations, the single approval prompt and the desktop's check of a response**, over all interleavings.

`dafny verify dfyconfig.toml` checks everything.

## How the model is built

| files | what they hold |
|---|---|
| `PairingTypes` | identifiers, sealed vaults, results |
| `PhoneStore`, `PhoneHistory`, `GenerationStore` | the phone's store: its state and single writes, what every sequence of writes keeps, and its operations as methods of a class |
| `DesktopDisk`, `DesktopFiles` | the desktop's transaction files, in the same two forms |
| `PairingProtocol`, `PairingInvariant`, `PairingSafety`, `PairingSteps`, `PairingTheorems` | the two devices together: steps, invariant, its preservation and the guarantees |
| `PairingRuns`, `PairingScenario` | logged storage operations as runs of the two devices, and concrete runs |
| `Reconcile`, `DesktopSession` | the recovery loop and the desktop process as methods over both stores |
| `PinCooldown`, `PinRate`, `PinGate` | the attempt counter, the bound on guessing over true time, concurrent submissions |
| `AppSession` | the phone app's session state and its tokens |
| `ReplayWindow` | timestamps and remembered request ids |
| `ApprovalSlot`, `ApprovalSafety`, `ApprovalExchange`, `ApprovalScenario` | the prompt and its tasks, what holds in every interleaving, the desktop's check, concrete runs |
| `OneDesktop`, `UnlockProgress` | the prompt joined with the two devices: a desktop that waits for a share gets the right one, and can always get it |

A storage operation is a method that makes one durable write at a time; any write may fail before or after it takes
effect (the field `faulty`). `PhoneStore.Legal` and `DesktopDisk.Legal` say which single writes the operations make in
which durable states, and each class logs what it wrote (the ghost field `log`) and is proved to write nothing else.
Without failures a method's result is also pinned to a specification function (`PhoneStore.Activated`,
`DesktopDisk.AfterRecovery` and so on), about which the laws are proved.

In the two-device system every durable write is a step of its own. On the phone a write needs to be legal and its
operation authorized. On the desktop it needs to be legal and one that the running program reaches
(`PairingProtocol.Reaches`): a phase mark, for instance, only after the phone's acknowledgement. `PairingRuns` shows that
every cut of a logged phone operation, of what the desktop writes on its own, and of beginning a transaction is a run of
that system; the recovery loop and the whole replacement command are methods over both stores that keep this link
(`PairingRuns.Linked`), so all guarantees about runs hold wherever they stop. Unlocking, saving and changing the password
are steps of the system in their own right.

`OneDesktop` puts the prompt's steps and the two devices' steps into one system: the secrets in the app's memory and the
approval keys are the same in both, and a desktop asks for the share of the generation that its pairing.json names. The
unlock that the two-device system takes as one step is there the whole exchange, from the request to the opened vault
(`OneDesktop.ExchangeUnlocks`).

Assumptions: one desktop data directory and one phone; pairing, request and instance ids are fresh, and a new share
differs from earlier ones; a write or rename is atomic but may report an error after it took effect; Argon2, HKDF,
XChaCha20-Poly1305 and ECDSA are abstract (key combination and payload encoding are injective, only the sealing key
opens a blob, only a phone that signs makes a signature); a stream delivers the pairing hello at most once; the desktop
process holds the vault lock while it runs; a clock reading is at least thirty minutes away from the end of 64 bits.

## What was found

* **Stale session after a completed replacement.** When clearing a finished transaction fails after its file is already
  gone (`cli/src/commands/pair.rs:181-190`), the process keeps the session it had before. This is the only way an open
  session ever stops opening vault.enc: `PairingTheorems.SessionOpensVault` holds over every run in which it does not
  happen, `PairingTheorems.WindowClosesTheVault` says that it always fails where it does. A save from such a session seals
  vault.enc with a share the phone is retiring; `PairingScenario.StaleSaveLosesTheVault` reaches the loss. The approval for
  it comes only from a phone app that still holds the superseded secrets and has not yet removed their key. The app falls
  behind only when the active pointer flips under it, and a lock, an unlock or a restart ends that
  (`PairingTheorems.MemoryFallsBehindOnlyAtFlip`); if the app has caught up whenever it approves a command of an open
  session, every guarantee holds (`PairingTheorems.CurrentMemorySuffices`).
* **Two overlapping setups orphan an approval key** (`app/src-tauri/src/storage.rs:786-798` takes no storage lock):
  `PhoneHistory.OverlappingSetupsOrphanAKey`. Setups that do not overlap never do (`PhoneHistory.NoOrphanKeys`).
* **Nothing at the prompt ties the share to the key that signs.** The share is copied from memory after the request is
  taken (`app/src-tauri/src/commands.rs:2039-2053`), and the desktop's check does not compare it with anything. If the
  secrets in memory have changed since, and the old key is still in the key store, the desktop accepts the other share
  (`ApprovalScenario.ShareOfAnotherGeneration`). With one desktop this cannot happen: while it waits for a share it moves no
  active pointer, so through every interleaving the share it accepts is its pairing's own and opens its vault
  (`OneDesktop.AcceptedShareIsOwn`). The case takes a second desktop that replaces the pairing meanwhile, and a removal of
  the old key that failed.
* **A token outlives a lock when the generation counter is at its last value**
  (`AppSession.SaturatedTokenOutlivesALock`), because the counter saturates.
* **A prompt can be lost to a request put back over it.** Two paths put a request back without a look at the slot: a denial
  with a wrong id (`app/src-tauri/src/commands.rs:2771-2778`), and a denial with the right id that cannot be signed
  (`app/src-tauri/src/commands.rs:2799-2806`). A restart aside, exactly these two steps take a prompt out of everybody's
  hands, and they do so whenever another request has been admitted meanwhile (`ApprovalSafety.PromptLostIff`); what is lost
  is never answered (`ApprovalSafety.LostIsNeverAnswered`). `ApprovalScenario.NewerRequestLost` is a run.
* **A captured request can be replayed once.** It is admitted again exactly if it first arrived at the early end of its
  timestamp window and comes back at the late end, with the prompt free and the memory of ids not full
  (`ReplayWindow.ReplayAdmittedIff`); `ReplayWindow.ReplayAtTheEnds` is a history.
* **A wrong PIN is counted when it is recorded, and a cooldown runs from a clock read before that.** A storage error
  reported after the write took effect counts the attempt without giving a verdict, and the clock is read before the store
  is reached. So `PinRate.RateBound` counts recorded failures and measures from the clock reading of the third one.

## Model

| member | source | states |
|---|---|---|
| `GenerationStores.GenerationStore.constructor` | app/src-tauri/src/storage.rs:139-183 | a new store is empty, with an empty history of writes |
| `GenerationStores.GenerationStore.Load` | app/src-tauri/src/storage.rs:208-214 | a pointer is read unchanged or the read fails |
| `GenerationStores.GenerationStore.LoadGeneration` | app/src-tauri/src/storage.rs:291-308 | a bundle is returned only if stored under its own id; refused exactly otherwise |
| `GenerationStores.GenerationStore.LoadBundle` | app/src-tauri/src/storage.rs:310-317 | and only if its metadata is well formed |
| `GenerationStores.GenerationStore.Write` | app/src-tauri/src/storage.rs:106-137 | one durable write happens entirely or not at all, an error leaves open which, and the store's invariant survives |
| `GenerationStores.GenerationStore.RemoveGeneration` | app/src-tauri/src/storage.rs:328-335 | key before bundle; only the named generation can lose either, even when a removal fails; success removes both |
| `GenerationStores.GenerationStore.CleanupRetiring` | app/src-tauri/src/storage.rs:337-348 | removes the key and bundle of the retired generation and no other, however it ends; refuses to touch the active one |
| `GenerationStores.GenerationStore.CleanupActivationMetadata` | app/src-tauri/src/storage.rs:350-369 | success leaves none of the three markers; the active pointer and PIN counters never move; only the retired generation can lose its key or bundle; a failed removal of the predecessor is no error |
| `GenerationStores.GenerationStore.ClearMarkers` | app/src-tauri/src/storage.rs:350-361 | staging, pending and committed are each cleared exactly where they name the activated generation; nothing else is touched, however it ends |
| `GenerationStores.GenerationStore.FinalizeActiveActivation` | app/src-tauri/src/storage.rs:371-380 | after success no commit marker names the active generation; otherwise nothing is touched |
| `GenerationStores.GenerationStore.ClearUncommittedPending` | app/src-tauri/src/storage.rs:382-405 | discards what nobody committed, bundles and keys included; refuses exactly when a commit is outstanding |
| `GenerationStores.GenerationStore.CandidateList` | app/src-tauri/src/storage.rs:388-394 | the staged and published generations, each once |
| `GenerationStores.GenerationStore.RemoveCandidates` | app/src-tauri/src/storage.rs:396-400 | removes every candidate except the active generation; no other generation can lose its key or bundle, however it ends |
| `GenerationStores.GenerationStore.DiscardCandidates` | app/src-tauri/src/storage.rs:387-404 | pointers are cleared only after what they name is gone |
| `GenerationStores.GenerationStore.BeginPendingPairing` | app/src-tauri/src/storage.rs:407-416 | success stages the new id with nothing published or committed, and leaves nothing of an earlier unpublished setup; without failures it is let in exactly if nothing is published or committed beyond what is active already |
| `GenerationStores.GenerationStore.GenerateApprovalKey` | app/src-tauri/src/storage.rs:786-798 | adds the key of one generation and nothing else, however it ends |
| `GenerationStores.GenerationStore.StorePendingGeneration` | app/src-tauri/src/storage.rs:418-449 | success leaves the bundle stored and the pending pointer on it; without failures it succeeds exactly for the staged id, its own alias and well-formed metadata, and otherwise changes nothing |
| `GenerationStores.GenerationStore.AbortUnstartedPairing` | app/src-tauri/src/storage.rs:567-574 | clears exactly the caller's own uncommitted generation, bundle and key included; refuses another's without touching anything |
| `GenerationStores.GenerationStore.CommitPendingGeneration` | app/src-tauri/src/storage.rs:528-545 | success means committed or already active; without failures it succeeds exactly for a stored generation that is active, committed or pending; repeating it changes nothing |
| `GenerationStores.GenerationStore.RetirePredecessor` | app/src-tauri/src/storage.rs:619-628 | before the flip the current generation is marked retiring and an older one removed; the new bundle is untouched |
| `GenerationStores.GenerationStore.FlipActive` | app/src-tauri/src/storage.rs:629-633 | the flip is one write, after which both PIN counters are forgotten |
| `GenerationStores.GenerationStore.ActivateCommitted` | app/src-tauri/src/storage.rs:619-637 | success leaves the generation active with no marker; the order of writes is that of the history laws |
| `GenerationStores.GenerationStore.ActivateGeneration` | app/src-tauri/src/storage.rs:601-639 | returns the stored bundle of a generation that is now active and unmarked; without failures it succeeds exactly for the active generation or one both pending and committed, and then the predecessor and all PIN counters are gone; idempotent |
| `GenerationStores.GenerationStore.GenerationCliNode` | app/src-tauri/src/storage.rs:661-683 | names the recorded desktop exactly for an active, pending or committed generation, and none for any other |
| `GenerationStores.GenerationStore.IsSetup` | app/src-tauri/src/storage.rs:894-911 | true exactly when a generation is active; finishes half-done activations and removes what is retired on the way |
| `PhoneHistory.LegalKeepsInv` | app/src-tauri/src/storage.rs:328-449 | each single write of each operation keeps pointers consistent and leaves no orphaned bundle |
| `PhoneHistory.LawfulKeepsInv` | app/src-tauri/src/storage.rs:328-639 | no orphans: after any mix of operations, each cut anywhere, every bundle is named by a pointer and the active and committed ones exist |
| `PhoneHistory.SetupCompletes` | app/src-tauri/src/storage.rs:407-639 | from every store in which no other setup is outstanding a new one is let in, and staging, key, bundle, commit and activation all succeed and leave exactly it active, its predecessor destroyed and the PIN counters cleared |
| `PhoneHistory.SetupAborts` | app/src-tauri/src/storage.rs:567-574 | aborted before its commit, published or not, it leaves nothing of itself, and the active generation as it was |
| `PhoneHistory.KeyWriteOrphansIff` | app/src-tauri/src/storage.rs:786-798 | a key write keeps all approval keys referenced if and only if its generation is referenced |
| `PhoneHistory.NoOrphanKeys` | app/src-tauri/src/storage.rs:382-449 | no approval key is ever orphaned as long as setups do not overlap: between staging a generation and generating its key no other setup begins or is aborted and, as in program order, nothing is published |
| `PhoneHistory.OverlappingSetupsOrphanAKey` | app/src-tauri/src/storage.rs:786-798 | two overlapping setups do orphan a key |
| `PhoneHistory.CommitIsPointOfNoReturn` | app/src-tauri/src/storage.rs:528-574 | under any later operations and failures a committed generation keeps its bundle and marker until it has become active |
| `PhoneHistory.ActiveMaterialKeptThroughout` | app/src-tauri/src/storage.rs:337-400 | as long as a generation stays active, no history of operations and failures removes its bundle or key |
| `PhoneHistory.ActiveMaterialKept` | app/src-tauri/src/storage.rs:611-637 | and the active pointer moves only to a committed successor, with the old generation marked retiring |
| `PhoneHistory.ReplayForUnknownGenerationRefused` | app/src-tauri/src/storage.rs:528-617 | commits and activations for a retired or unknown generation fail without a single write, however many arrive and wherever they are cut |
| `PhoneHistory.ReplayForActiveGenerationOnlyFinishesIt` | app/src-tauri/src/storage.rs:529-533 | any number of them for the active one, cut anywhere, leave a newer transaction's pointers and material and the PIN counters alone |
| `PhoneHistory.ReplaySparesNewerTransaction` | app/src-tauri/src/storage.rs:601-610 | a whole replayed request succeeds and loses at most a generation already marked retiring |
| `PhoneHistory.ActivationTraceKeepsTarget` | app/src-tauri/src/storage.rs:601-639 | wherever an activation is cut, the settled state it is heading for is the same |
| `PhoneHistory.RetrySettles` | app/src-tauri/src/storage.rs:894-911 | a retry followed by a setup check reaches the settled state from any point |
| `PhoneHistory.InterruptedActivationConverges` | app/src-tauri/src/storage.rs:601-639 | crash anywhere, retry, check setup: the same pointers, bundles and keys as no crash |
| `DesktopFileStore.DesktopFiles.constructor` | cli/src/storage/paths.rs:390-404 | a new data directory holds none of the files |
| `DesktopFileStore.DesktopFiles.Change` | cli/src/storage/paths.rs:213-263 | one write, rename or removal happens entirely or not at all; an error may come after it took effect |
| `DesktopFileStore.DesktopFiles.Status` | cli/src/storage/paths.rs:414-437 | pending exactly while a pending record or a transaction file exists; otherwise ready exactly with a readable record, missing exactly without a record and legacy files, and a bad phone id told apart from a bad record |
| `DesktopFileStore.DesktopFiles.RemoveAll` | cli/src/storage/paths.rs:659-674 | files vanish in order, absent ones are skipped, nothing else changes |
| `DesktopFileStore.DesktopFiles.ClearPendingPairing` | cli/src/storage/paths.rs:659-674 | success leaves only the live vault and record, which never change |
| `DesktopFileStore.DesktopFiles.ClearRollback` | cli/src/storage/paths.rs:676-687 | removes rollback copies only |
| `DesktopFileStore.DesktopFiles.CaptureRollback` | cli/src/storage/paths.rs:573-583 | success leaves copies of exactly what is live |
| `DesktopFileStore.DesktopFiles.WriteTransactionPrepared` | cli/src/storage/paths.rs:569-591 | a transaction file appears only with rollback copies equal to the live files beside it, and records which of them exist; refused if one exists |
| `DesktopFileStore.DesktopFiles.AdvanceTransaction` | cli/src/storage/paths.rs:605-618 | changes the phase of the transaction with this id and nothing else |
| `DesktopFileStore.DesktopFiles.PromotePendingPairing` | cli/src/storage/paths.rs:631-657 | vault before record, each at most once, only in the phone-committed phase with rollback copies; refused exactly when it cannot complete |
| `DesktopFileStore.DesktopFiles.RecoverTransaction` | cli/src/storage/paths.rs:689-717 | what the desktop can do alone: promote, clear or wait; every partial outcome is named |
| `PairingTheorems.StepKeepsInv` | cli/src/commands/pair.rs:404-454 | every write, message, crash and restart on either side keeps the joint invariant |
| `PairingTheorems.RunKeepsInv` | app/src-tauri/src/peer.rs:180-302 | the joint invariant holds in every state of every run in which sessions that write belong to the paired generation |
| `PairingTheorems.VaultStaysDecryptable` | cli/src/commands/pair.rs:404-454 | in every reachable state the phone holds, under its active or committed pointer, a share that opens the live vault with the master password |
| `PairingTheorems.DestroyedSharesAreNotNeeded` | app/src-tauri/src/storage.rs:328-348 | when a bundle is destroyed neither the live vault nor a transaction's pending vault is sealed with its share |
| `PairingTheorems.BothSidesAgree` | cli/src/storage/paths.rs:631-717 | without a transaction file the vault, pairing.json and the phone's active pointer name one generation |
| `PairingTheorems.RecoveryFindsItsGeneration` | cli/src/commands/pair.rs:525-534 | the record recovery dials has the transaction's id, and the phone authorizes this desktop for it |
| `PairingTheorems.ContentsCarried` | cli/src/commands/pair.rs:144-190 | unless an entry is saved, every copy that is or can become live carries the same plaintext |
| `PairingTheorems.ContentsSurvive` | cli/src/commands/pair.rs:144-190 | and it opens with the current password and a phone-held share, through crashes, replacements and rotations |
| `PairingTheorems.NoSaveDuringTransaction` | cli/src/session.rs:146-151 | while a transaction file exists vault.enc changes only by its own promotion |
| `PairingTheorems.SessionsStayCurrent` | cli/src/commands/pair.rs:181-201 | outside the one window every open session of every run belongs to the paired generation, so every guarantee below and above holds there without further condition |
| `PairingTheorems.SessionOpensVault` | cli/src/session.rs:264-279 | over every run of unlocks, saves, rotations, replacements and failing writes outside the window, an open session has the key and salt of vault.enc |
| `PairingTheorems.WindowClosesTheVault` | cli/src/commands/pair.rs:181-190 | after a failed pairing the session opens the vault if and only if it did not return through the window |
| `PairingTheorems.SaveKeepsVaultOpenIff` | cli/src/commands/pair.rs:181-190 | a save leaves a vault the phone can open if and only if the session belongs to the paired generation |
| `PairingTheorems.RotationKeepsVaultOpenIff` | cli/src/commands/passwd.rs:31-71 | the same for a password change |
| `PairingTheorems.MemoryFallsBehindOnlyAtFlip` | app/src-tauri/src/commands.rs:1051-1059 | the app holds superseded secrets only after the active pointer flipped under it, and until its next lock, unlock or restart |
| `PairingTheorems.CurrentMemorySuffices` | app/src-tauri/src/commands.rs:1051-1059 | if the app holds none whenever it approves a command of an open session, every run keeps the invariant and every approved command belongs to the paired generation, flips under an unlocked app included |
| `PairingRuns.PhoneOperationsAreARun` | app/src-tauri/src/storage.rs:328-639 | every cut of authorized phone operations, as their methods log them, is a run of the two devices |
| `PairingRuns.OwnWritesAreARun` | cli/src/storage/paths.rs:689-717 | every cut of what a recovering or driving desktop writes on its own is a run |
| `PairingRuns.PreparationIsARun` | cli/src/storage/paths.rs:569-591 | so is every cut of beginning a transaction, which is under way once its file is written |
| `PairingRuns.MarkLinked` | cli/src/commands/pair.rs:499-512 | the phase mark is a step of the run once the acknowledgement has been sent |
| `PairingRuns.ReadyLinked` | cli/src/commands/pair.rs:342-402 | prepared, the phone's signed readiness and its verification are steps of the run |
| `PairingRuns.AnswerLinked` | app/src-tauri/src/commands.rs:976-1075 | whatever part of a request the phone carries out, the two stores stay on a run |
| `PairingScenario.InitCompletes` | cli/src/commands/init.rs:160-195 | a first setup can go from nothing to a paired vault with the phone app unlocked |
| `PairingScenario.StaleSessionReachable` | cli/src/commands/pair.rs:181-190 | the superseded session is reachable, with a phone that can still approve its commands |
| `PairingScenario.StaleSaveLosesTheVault` | cli/src/commands/pair.rs:181-190 | it gets an approval and saves, and once the phone has destroyed the retired generation no share on it opens the vault |
| `Reconcile.ReachableIsResumable` | cli/src/commands/pair.rs:486-523 | every reachable state, crash states included, is one recovery can start from |
| `Reconcile.AnswerKeepsResumable` | app/src-tauri/src/commands.rs:976-1075 | whatever part of an answer the phone carries out, recovery can still start |
| `Reconcile.Recover` | cli/src/storage/paths.rs:689-717 | local recovery never refuses in such a state, keeps the vault and record recovery is heading for, never loses a phase and stays on a run of the two devices |
| `Reconcile.Authorize` | app/src-tauri/src/commands.rs:804-824 | only the desktop recorded in a referenced generation's bundle is let through, and a refusal means another peer or a state in which the request could not be carried out |
| `Reconcile.ServeCommit` | app/src-tauri/src/commands.rs:976-1019 | success means authorized and committed or active; refused only for another peer or where the request could not be carried out |
| `Reconcile.ServeActivate` | app/src-tauri/src/commands.rs:1032-1055 | the storage part of an answer: success means authorized, active and free of markers; refused only for another peer or where the request could not be carried out |
| `Reconcile.AnswerActivate` | app/src-tauri/src/commands.rs:1032-1075 | success is reported only after the app has locked, so no superseded secrets are left in memory |
| `Reconcile.SendRecoveryTransition` | cli/src/commands/pair.rs:525-559 | with messages lost at any point both states stay recoverable; a failure is the network's or the phone's storage, never a refusal by the phone |
| `Reconcile.MarkPhase` | cli/src/storage/paths.rs:593-618 | the phase moves only when the phone has done what its request asks, and the stores stay on a run |
| `Reconcile.Resume` | cli/src/commands/pair.rs:490-518 | one request and its mark: with phone, network and storage up the next phase is reached, whatever is lost the state stays recoverable and on a run |
| `Reconcile.ReconcileTransaction` | cli/src/commands/pair.rs:486-523 | terminates in at most two rounds, never takes a refusing branch, and ends with both sides on the transaction's generation; any failure leaves recoverable states, and started on a run of the two devices it ends on one |
| `DesktopSessions.ReachableIsUnlockable` | cli/src/session.rs:132-249 | in every reachable state the password and the phone's share open the vault recovery is heading for |
| `DesktopSessions.SendPairingTransition` | cli/src/commands/pair.rs:465-484 | an acknowledged transition happened on the phone, and a lost message leaves a run of the two devices |
| `DesktopSessions.CommitAndActivate` | cli/src/commands/pair.rs:404-454 | success: both sides on the new generation, no leftovers; failure: old pair, new pair or a recoverable transaction; wherever it stops, a state of some run |
| `DesktopSessions.VerifiedIsAnswerable` | cli/src/commands/pair.rs:342-402 | in every run, when the desktop has verified the phone's signed readiness, both pending files are complete, the phone can commit that generation, and its share opens the pending vault to the session's contents |
| `DesktopSessions.WritePending` | cli/src/commands/pair.rs:163-177 | the pending files are written beside the live ones, which stay untouched, and each cut is a run |
| `DesktopSessions.Persist` | cli/src/commands/pair.rs:162-179 | the live pair is the old one or the new one, never mixed, or a transaction heading for the new one; wherever it stops, a state of some run |
| `DesktopSessions.Abort` | cli/src/commands/pair.rs:186-189 | clears everything a failed pairing left unless storage fails; touches nothing live, and returns to the session it started from |
| `DesktopSessions.GiveUp` | cli/src/commands/pair.rs:181-190 | a failure leaves a transaction that has begun untouched for recovery; before one, the pending files are gone unless storage fails; where the desktop is heading does not change, and the stores stay on a run |
| `DesktopSessions.ReplaceShare` | cli/src/commands/pair.rs:144-190 | the files after a replacement: the vault sealed under the new share, or the old pair with no pending files left, or a transaction heading for the new one; with the session that remains, a state of some run |
| `DesktopSessions.Desktop.EnsureUnlocked` | cli/src/session.rs:132-249 | recovers first; success takes the user's approval and gives a session under the password and the active generation's share that opens vault.enc with its contents; with working storage, phone and approval the right password always succeeds |
| `DesktopSessions.Desktop.SaveVaultCandidate` | cli/src/session.rs:264-279 | the session takes the new contents only after the write, which succeeds unless storage fails; a failed write leaves the session, which still opens the file |
| `DesktopSessions.Desktop.RotateVault` | cli/src/commands/passwd.rs:31-71 | a session that survives opens the file; an uncertain write always drops it, a working store never does; the share and contents are kept |
| `DesktopSessions.Desktop.ReplacePairing` | cli/src/commands/pair.rs:144-201 | the session that remains opens the vault if and only if the call succeeded or the record is still the old one; a failure before the transaction leaves no pending files unless storage fails; whatever fails, the whole command is a run of the two devices |
| `DesktopSessions.Desktop.Initialise` | cli/src/commands/init.rs:40-195 | never replaces a vault that exists or is on its way; success gives the empty vault under the new share; a failure before the transaction leaves no pending files unless storage fails |
| `PinCooldown.DurationIsPenalty` | app/src-tauri/src/commands.rs:161-170 | for every level the shift, fallback and saturation compute min(30000·2^(level-1), 1800000), and 0 at level 0 |
| `PinCooldown.PenaltyPastSaturation` | app/src-tauri/src/commands.rs:161-218 | the level counter stopping at 255 never shortens a cooldown |
| `PinCooldown.CooldownEndsIff` | app/src-tauri/src/commands.rs:172-205 | a cooldown is over if and only if the boot it is anchored in has run on for its duration; a different boot restarts it in full |
| `PinCooldown.RemainingIsExact` | app/src-tauri/src/commands.rs:172-205 | the remaining time reported is exact: in this boot the cooldown ends when it is over and no earlier, and is counted down by the time that passes |
| `PinCooldown.PinAttemptState.ActiveCooldownRemaining` | app/src-tauri/src/commands.rs:172-205 | refines the specification function |
| `PinCooldown.PinAttemptState.RecordFailure` | app/src-tauri/src/commands.rs:207-224 | refines the specification function |
| `PinCooldown.PinGuard.Store` | app/src-tauri/src/storage.rs:984-999 | the stored entry changes entirely or not at all |
| `PinCooldown.PinGuard.VerifyPin` | app/src-tauri/src/commands.rs:584-650 | a verdict is given only when the state it stands for is stored; outside a cooldown the right PIN is verified and clears the entry, the third wrong one starts a cooldown, the others are counted; during one nothing is counted; every failure leaves one of three named states |
| `PinRate.StepKeepsPaced` | app/src-tauri/src/commands.rs:584-650 | cooldowns are served in true time through attempts, delays between reading the clock and storing, failing storage, restarts and reboots |
| `PinRate.RateBound` | app/src-tauri/src/commands.rs:584-650 | since the last success the clock of the (3k+1)-th recorded wrong PIN is read, and its verdict given, no earlier in true time than the sum of the first k penalties after the clock of the third was read |
| `PinRate.TotalClosed` | app/src-tauri/src/commands.rs:101-103 | that sum in closed form: 30000·(2^k - 1) up to the sixth, then thirty minutes more for each |
| `PinRate.RebootRestartsCooldown` | app/src-tauri/src/commands.rs:181-189 | after a reboot the whole cooldown is served again |
| `PinGate.InterleavingIsSequential` | app/src-tauri/src/commands.rs:591-591 | under the gate any interleaving leaves the verdicts and state of some sequential order |
| `PinGate.RunIsAccounted` | app/src-tauri/src/commands.rs:614-619 | every verdict goes to exactly one submission, and only attempts past the cooldown check cost an Argon2 run |
| `PinGate.WrongAtOnce` | app/src-tauri/src/commands.rs:207-224 | n wrong attempts at one reading of the clock, one after another |
| `PinGate.SimultaneousWrongPins` | app/src-tauri/src/commands.rs:584-650 | N at once: min(N,2) incorrect, one cooldown started if N is at least 3, the rest turned away, min(N,3) Argon2 runs |
| `AppSession.AppState.constructor` | app/src-tauri/src/state.rs:177-195 | the app starts locked and in the background |
| `AppSession.AppState.SetForeground` | app/src-tauri/src/state.rs:212-218 | moving to the background is also a lock: no secrets, unlock, replacement or key authorization is left |
| `AppSession.AppState.Lock` | app/src-tauri/src/state.rs:220-224 | no secrets, unlock, replacement or key authorization is left, and the generation moves on |
| `AppSession.AppState.ClearSession` | app/src-tauri/src/state.rs:226-239 | the same; an initial setup's verification code survives, a later one does not |
| `AppSession.AppState.AuthenticationGeneration` | app/src-tauri/src/state.rs:241-245 | a token is issued exactly in the foreground and would be honoured now; in the background nothing is |
| `AppSession.AppState.MarkApprovalKeyAuthenticated` | app/src-tauri/src/state.rs:254-259 | recorded exactly for a current token |
| `AppSession.AppState.CompleteUnlock` | app/src-tauri/src/state.rs:261-268 | publishes exactly for a current token, and uses it up |
| `AppSession.AppState.BeginPairingReplacement` | app/src-tauri/src/state.rs:270-276 | revokes an earlier authorization and issues a token that is current |
| `AppSession.AppState.CompletePairingReplacement` | app/src-tauri/src/state.rs:278-286 | authorizes exactly for a current replacement token |
| `AppSession.AppState.CancelPairingReplacement` | app/src-tauri/src/state.rs:288-293 | revokes the authorization and outstanding tokens without ending the session |
| `AppSession.GenerationStandsIff` | app/src-tauri/src/state.rs:226-268 | the generation stands still exactly while nothing supersedes it, short of saturation |
| `AppSession.UnlockTokenHonouredIff` | app/src-tauri/src/state.rs:247-268 | stale authentication never publishes: a token is honoured if and only if no lock, backgrounding or unlock came since, short of saturation |
| `AppSession.SaturatedTokenOutlivesALock` | app/src-tauri/src/state.rs:228-228 | at saturation it is honoured after a lock |
| `AppSession.ReplacementTokenHonouredIff` | app/src-tauri/src/state.rs:270-293 | for a replacement also no begin or cancel came since, counted modulo 2^64 |
| `AppSession.SecretsAreGuarded` | app/src-tauri/src/state.rs:212-293 | secrets are in memory only when unlocked and in the foreground, once the direct write at the end of a setup has been followed by a lock |
| `AppSession.NothingPublishedInBackground` | app/src-tauri/src/state.rs:212-293 | no unlock time or authorization exists in the background, whatever the calls |
| `AppSession.InMemoryIff` | app/src-tauri/src/state.rs:212-293 | over every sequence of calls: secrets, unlock time, replacement authorization and key authentication are in memory exactly from the call with a current token that put them there until a lock, a move to the background or a later one; for a replacement also until the next begin or cancel |
| `AppSession.SetupCodeKeptIff` | app/src-tauri/src/state.rs:226-293 | the displayed verification code lasts exactly until a replacement is cancelled or an app already set up is locked |
| `ReplayWindow.FreshTimestampIff` | ferusa-core/src/auth.rs:48-64 | the two saturating comparisons accept exactly the timestamps within 300 s on either side |
| `ReplayWindow.RequestMemory.Remember` | app/src-tauri/src/commands.rs:111-122 | accepts an id exactly if unseen for 600 s and the memory is not full, keeps exactly the other live ids, and never grows past its bound |
| `ReplayWindow.MemoryIsBounded` | app/src-tauri/src/commands.rs:108-109 | at most 4096 remembered ids in every run |
| `ReplayWindow.AdmittedIsRemembered` | app/src-tauri/src/commands.rs:111-122 | a live id is never evicted |
| `ReplayWindow.SameIdApart` | app/src-tauri/src/commands.rs:111-122 | one id is admitted twice only 600 s apart |
| `ReplayWindow.ReplayOnlyAtTheEnds` | ferusa-core/src/auth.rs:48-64 | with the same timestamp only at exactly the two ends of the window |
| `ReplayWindow.NeverThrice` | ferusa-core/src/auth.rs:48-64 | and never a third time |
| `ReplayWindow.RetainedIsLive` | app/src-tauri/src/commands.rs:111-122 | the bounded memory holds exactly the ids admitted in the last 600 s |
| `ReplayWindow.AdmittedIff` | app/src-tauri/src/commands.rs:111-122 | in terms of the history alone: a request is admitted if and only if it is dated within 300 s, the prompt is free, its id was not admitted in the last 600 s, and fewer than 4096 ids were |
| `ReplayWindow.ReplayAdmittedIff` | app/src-tauri/src/commands.rs:111-122 | a request admitted once is admitted again, with no admission between, if and only if it first came at the early end of its window, comes back at the late end, and the prompt and the memory have room |
| `ReplayWindow.ReplayAtTheEnds` | app/src-tauri/src/commands.rs:111-122 | such a history exists |
| `ApprovalSlot.BuildResponse` | app/src-tauri/src/peer.rs:145-166 | a response repeats its request, carries a share exactly for an approval that was asked for one, and cannot be built without it |
| `ApprovalSlot.Prompt.TakeVerifiedPending` | app/src-tauri/src/commands.rs:679-708 | takes the slot exactly for the verified instance, under 65 s old, in its own session, unlocked at most ten minutes ago, in the foreground |
| `ApprovalSlot.Prompt.RestoreAfterSignError` | app/src-tauri/src/commands.rs:710-729 | restores only into an empty slot, and exactly while under 65 s old, in the same session and in the foreground |
| `ApprovalSlot.Prompt.TakeExpired` | app/src-tauri/src/commands.rs:422-449 | an expiry task takes exactly its own instance, once it is 65 s old |
| `ApprovalSafety.StepKeepsInv` | app/src-tauri/src/commands.rs:655-729 | every step of every task keeps each request in one pair of hands |
| `ApprovalSafety.RunKeepsInv` | app/src-tauri/src/commands.rs:1159-1192 | in every interleaving of admissions, PIN checks, takes, restores, denials, expiry, locks and restarts |
| `ApprovalSafety.ApprovalsAreEarned` | app/src-tauri/src/commands.rs:1874-2086 | an approval sent means: for that instance the right four-digit PIN for unlock, list and read, the right six-digit PIN for every other action, taken under 65 s old, in a session unlocked without a break since admission |
| `ApprovalSafety.ApprovalSteps` | app/src-tauri/src/commands.rs:2028-2086 | behind every approval sent lie three earlier steps of one task: it took the request from the prompt in the foreground, in the session of its admission and within ten minutes of an unlock that still stood; it copied, still in the foreground, the share that is sent; and it found the request under 65 s old before signing |
| `ApprovalSafety.AnsweredOnce` | app/src-tauri/src/commands.rs:655-729 | each admitted instance gets at most one response |
| `ApprovalSafety.SameRequestApart` | app/src-tauri/src/commands.rs:111-122 | between restarts of the app one request id gets into the prompt at most once in 600 s, in every interleaving |
| `ApprovalSafety.SecretsAreKept` | app/src-tauri/src/commands.rs:2039-2053 | the guard of the generation counter: if the session of the admission still goes on when the share is copied, and no setup has ended in it, the secrets are those whose PIN was checked |
| `ApprovalSafety.PromptLostIff` | app/src-tauri/src/commands.rs:2761-2806 | over every run: a step other than a restart takes the prompt in the slot out of everybody's hands if and only if it puts a request back after a denial by a wrong id or after a user's denial that could not be signed |
| `ApprovalSafety.LostIsNeverAnswered` | app/src-tauri/src/commands.rs:655-729 | a request that is in nobody's hands and unanswered stays so in every continuation |
| `ApprovalExchange.SessionApprovals.Register` | cli/src/twofa/mod.rs:142-160 | the session awaits this request with its code and action |
| `ApprovalExchange.SessionApprovals.Accept` | cli/src/twofa/mod.rs:257-320 | the verdict of the checks in order; the looked-up entry is used up even when a later check fails |
| `ApprovalExchange.SessionApprovals.Finish` | cli/src/twofa/mod.rs:257-339 | whatever came back, this request is no longer awaited |
| `ApprovalExchange.SessionMatchesOneShot` | cli/src/twofa/mod.rs:257-339 | the session path accepts exactly what the one-shot path accepts: its missing id comparison follows from the signed payload |
| `ApprovalExchange.SessionNeedsAuthenticSignatures` | cli/src/twofa/mod.rs:262-276 | with a signature over a mismatching payload, which no phone makes, it would accept more |
| `ApprovalExchange.AcceptedIff` | cli/src/twofa/mod.rs:386-413 | a response is accepted if and only if it is an approval signed with the pairing's key over it and over this very request, and both are dated within 300 s: the checks of id, code and action then never fail |
| `ApprovalExchange.AcceptedWasApproved` | cli/src/twofa/mod.rs:386-413 | an accepted approval was executed on the phone for exactly that request, after the right PIN of the length its action requires, with a share exactly if asked for, and request and response are dated within 300 s, whatever the network did |
| `ApprovalExchange.AcceptedShareIsOwnIff` | app/src-tauri/src/commands.rs:2039-2053 | an accepted share is the pairing's own if and only if, at the copy, the secrets in memory were of the generation whose key signs; `ApprovalSafety.SecretsAreKept` says when the generation counter guarantees that |
| `ApprovalExchange.SessionAcceptedWasApproved` | cli/src/twofa/mod.rs:99-339 | the same over an open session |
| `OneDesktop.AcceptedShareIsOwn` | cli/src/session.rs:180-249 | with one desktop and one phone, through every interleaving of prompts, locks, unlocks, replacements, crashes and network: a share that a waiting desktop accepts is its pairing's own, the active generation's, and opens its vault |
| `OneDesktop.ExchangeUnlocks` | cli/src/session.rs:132-249 | the exchange refines the unlock of the two-device system: what acceptance does is that step or nothing, and with the master password it always opens the vault |
| `UnlockProgress.UnlockGoesThrough` | cli/src/session.rs:132-249 | progress: from every state of every such run in which the desktop can unlock and the app is unlocked with an empty prompt, the right PIN and password lead to a session with the contents of the vault |
| `ApprovalScenario.ApprovalHappens` | app/src-tauri/src/commands.rs:1874-2086 | an approval can run from admission to acceptance with its share |
| `ApprovalScenario.ShareOfAnotherGeneration` | app/src-tauri/src/commands.rs:2039-2053 | with the secrets of another generation in memory and the old key still there, the desktop accepts that other share |
| `ApprovalScenario.NewerRequestLost` | app/src-tauri/src/commands.rs:2761-2779 | a run in which a put-back overwrites a newer prompt, which is then lost |

## Left out

- PinRate.RateBound: counts a wrong PIN when its record takes effect; an attempt cut before that gives no verdict and is
  not counted, as in the program.
- PairingTheorems.RunKeepsInv: assumes that sessions that write belong to the paired generation; outside the one window
  described above that is a theorem, inside it there is a run that breaks it.
- ApprovalSafety.SameRequestApart: the remembered ids are in memory only, so nothing is promised across a restart of the app.
- OneDesktop.AcceptedShareIsOwn: reading the active bundle and publishing its secrets in memory is one step here, a restart
  forgets the prompt and the memory together, and sessions that write belong to the paired generation as in RunKeepsInv.
  The approval of an open session's command is a step of the two devices there; only the request for a share takes the
  whole way over the prompt.
- DesktopSessions.Desktop.RequestUnlockShare: the request, the PIN, the app's memory and the signature of an unlock are one
  flag here, since prompt and response have their own model in ApprovalSlot and ApprovalExchange.
- The methods that unlock, save, rotate and initialise are not linked to runs of the two devices; the system has what they
  do as steps.
- Reconcile.ReconcileTransaction: the app session that an activation locks is part of Reconcile.AnswerActivate only.
- iroh endpoints, QUIC streams, timeouts and close codes: only messages sent, lost, delayed or repeated are modelled.
- Argon2, HKDF, encryption, ECDSA, the Android key store and biometrics: abstract functions and outcomes; the probe that a
  stored public key belongs to its approval key is not modelled.
- JSON, hex, UUID text and byte framing: abstract injective encodings; corrupt entries and unsupported versions appear
  only as a bundle that is not well formed.
- File permissions, symbolic links, locking and syncing: writes are atomic and one process holds the vault lock.
- The legacy files (vault.salt, HMAC pairing, the wall-clock cooldown deadline), the developer stub for the second factor
  and the test-only store reset.
- The interleaving of the phone's own storage operations: the storage lock makes each one atomic, so methods of one store
  do not overlap; key generation, which takes no lock, is a separate operation.
- The Argon2 semaphore and connection limiters, PIN format rules, display sanitising, password generation, clipboard, the
  REPL and the user interface: they would only add easy members.
- The user's confirmation of the verification code and the contents of PairingHello: the exchange starts where the desktop
  has both the id and the share.
- That a new pairing can always be started: a desktop that aborts before its transaction leaves the phone's pending pointer
  set, and the phone then refuses a new setup (`app/src-tauri/src/storage.rs:411-413`).
