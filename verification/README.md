# Verified model of Stim's coordination core

Stim runs development sessions on shared machines. This project models the parts of it that must be right under
crashes, races, hostile networks and long runs, and proves what they promise:

- **Ownership claims** (`ClaimModel`, `ClaimBase`, `ClaimSafety`, `ClaimRuns`, `ClaimLate`, `ClaimLive`, `ClaimEnds`,
  `ClaimWitness`): a crash-tolerant readers/writer lock made of mkdir, rename, readdir, unlink and rmdir, as a
  transition system with one filesystem call or liveness question per step, any number of processes, and deaths and
  refused calls anywhere. All its invariants hold of every run. `LocksAndSlots` holds the directory locks and build
  slots that rest on it.
- **Noise XX and XXpsk2** (`NoiseModel`, `NoiseHandshake`, `NoiseSchedule`, `NoiseRuns`, `NoiseState`, `NoiseWitness`):
  the handshake and transport of the Noise Protocol Framework, revision 34 (sections 5.1, 5.2, 5.3 and 9.2), first as
  functions, then as the objects that update keys, counters and flags in place; `FirstMessage` and `JobFrames` are the
  framing around it.
- **Oversight** (`OversightModel`, `OversightLook`, `OversightWake`, `OversightRuns`, `OversightEpisodes`,
  `OversightQuiet`, `OversightEvents`, `OversightSigns`, `OversightOwed`, `OversightMerges`, `OversightLasting`,
  `OversightDue`, `OversightOrder`): the notifications a machine owes, look after look, with settle times, episodes,
  quiet hours and a wake-up time.
- **Unit words** (`UnitWords`), **device pinning** (`DevicePinning`), the **Metro link pool** (`MetroLinks`) and the
  **agent event reader** (`AgentEvents`). `Options` holds the optional value they all use.

Where the source updates an object, the model has a class or a method with a loop whose contract names the function it
computes; the theorems are about those functions, over all inputs and all runs. A run is a list of actions, calls or
looks, so "for every run" is a quantifier over lists. Errors the source throws are results (`None`, `failed`, a
refusal).

## What the proofs found

- **Clearing a claim set can break exclusion.** `clearFreeClaimSet` removes other attempts' staging directories with a
  recursive removal, which is two calls: the record, then the directory. If the clearing process dies between them
  (`DeathInClearingBreaksExclusion`), or the second call fails, is caught and the clearing claim is released
  (`ThrowInClearingBreaksExclusion`, with no death at all), the victim can later rename the hollow directory into place
  and return `acquired` with no record on disk, and another process acquires too. The guard of the failing branch is a
  rename that lands without its record. Claim by claim, in every run: a claim someone needs has its record exactly if
  its own rename did not land so (`RecordExactly`); of two holders of whom one is exclusive, one is an exclusive holder
  without its record (`MutualExclusion`), so exclusion fails exactly when such a holder has company
  (`ExclusionExactly`); nothing ever counts such a claim (`HollowIsNeverCounted`); and it takes a call of
  `clearFreeClaimSet` (`OnlyClearingHollows`).
- **Acquired shared holders can still grow once an exclusive claim is published**: an attempt that listed `exclusive/`
  just before may return `acquired` just after (`SharedMayReturnLate`). `LateExactly` says which can: exactly those that
  listed `exclusive/` without the claim, counted no exclusive claim, and have no shared claim still to ask about whose
  owner died with a child declared.
- **A `split()` that throws does not end a handshake**, unlike a throwing write or read (`EarlySplitIsNotFinal`,
  `ThrownSplitChangesNothing`). The class comment speaks of writes and reads only, so the code keeps to it.
- **Wake soundness has one exception**: a workspace that is idle and yet driven by an agent is announced again at every
  look. `SecondLook` is the exact condition, `AnnouncedAgain` an instance.

## Model

| member | source | states |
|---|---|---|
| ClaimBase.BaseKeeps | packages/core/ownership-claim.ts:390-824 | Every step of every process and every death, without exception, keeps the base invariant: what inspections have listed was issued, what they judged dead is dead, and `exclusive/` holds one record. |
| ClaimBase.StepLoses | packages/core/ownership-claim.ts:448-544 | From any state of that invariant a record goes only if its claim is dead or its own live thread releases it, and the child record of a claim with a record likewise. |
| ClaimSafety.StepKeeps | packages/core/ownership-claim.ts:390-824 | Every step of every process and every death, without exception, keeps the whole invariant: a needed claim has its record exactly if its own rename did not land without one, and a needed exclusive claim with its record and a needed shared claim cannot miss each other. |
| ClaimSafety.HollowUnbacked | packages/core/ownership-claim.ts:615-632 | A rename that lands without its record leaves a live thread with a published claim that has none. |
| ClaimSafety.NeededPresent | packages/core/ownership-claim.ts:326-342 | A claim someone may still need is on disk, in its own directory, exactly if it did not land hollow; a shared one always is. |
| ClaimRuns.AlwaysBase | packages/core/ownership-claim.ts:390-824 | Every state any run reaches satisfies the base invariant. |
| ClaimRuns.Reached | packages/core/ownership-claim.ts:390-824 | Every state any run reaches satisfies the whole invariant. |
| ClaimRuns.OneRecord | packages/core/ownership-claim.ts:615-632 | In every run `exclusive/` never holds two records. |
| ClaimRuns.MutualExclusion | packages/core/ownership-claim.ts:615-754 | In every interleaving, with deaths and refused calls anywhere, two holders of whom one is exclusive include an exclusive one without its record; so while they have their records a held exclusive claim is the only claim held. |
| ClaimRuns.OnePublishedExclusive | packages/core/ownership-claim.ts:615-632 | In every run, already from publication on, at most one needed exclusive claim is published that did not land hollow. |
| ClaimRuns.RecordExactly | packages/core/ownership-claim.ts:497-632 | In every run a claim someone needs has its record if and only if its own rename did not land without one. |
| ClaimRuns.ExclusionExactly | packages/core/ownership-claim.ts:497-754 | In every run exclusion fails if and only if an exclusive holder whose own rename landed without its record has company. |
| ClaimRuns.HollowIsNeverCounted | packages/core/ownership-claim.ts:390-470 | In every run a claim that landed hollow never gets a record, and no inspection lists it, asks after it or counts it. |
| ClaimRuns.OnlyClearingHollows | packages/core/ownership-claim.ts:497-544 | In a run in which nobody calls clearFreeClaimSet no rename lands so, and exclusion holds of all claims. |
| ClaimRuns.NeverReapsTheLiving | packages/core/ownership-claim.ts:448-544 | In every run no step removes the record of a claim whose owner, recorded child or declared child may need it, other than its own live thread releasing it; nor the child record of a claim that has its record. |
| ClaimRuns.KilledOwnerFreesNothing | packages/core/ownership-claim.ts:326-342 | In every run the claim, with its record, of an owner killed after declaring a child, even inside its release, stays, with its child record, for as long as the child or its group lives, or for ever while only declared. |
| ClaimRuns.SharedGivesWay | packages/core/ownership-claim.ts:689-730 | In every run, while an exclusive claim with its record stays published, no shared attempt that has yet to count it becomes acquired. |
| ClaimLate.SharedChildrenHaveRecords | packages/core/ownership-claim.ts:448-544 | In every run whoever removes a shared claim removes its child record first, so a child record in `shared/` has its claim beside it. |
| ClaimLate.LateExactly | packages/core/ownership-claim.ts:689-730 | In every run, while a published exclusive claim with its record stays needed, a shared attempt has a continuation in which it becomes acquired only if it listed `exclusive/` without the claim, counted no exclusive claim and has no shared claim to ask about that must refuse it; and then it has one, unless it is just asking about an older exclusive claim. |
| ClaimRuns.ExclusiveSettles | packages/core/ownership-claim.ts:649-754 | In every run the settling inspection of a published exclusive attempt goes on, is refused and releases, or ends: acquired if it counted no shared claim, and else pending. |
| ClaimLive.InspectionFinds | packages/core/ownership-claim.ts:390-495 | From every state of the base invariant in which all on record can be judged, an inspection's own calls end with exactly the claims that are not dead, the records of the others and stray child records gone, and empty directories removed. |
| ClaimLive.AcquiresExactly | packages/core/ownership-claim.ts:667-748 | From every state any run reaches, a new attempt comes to hold its claim by its own calls if and only if nothing that is not dead stands in its way: whatever crashed before wedges nothing. |
| ClaimLive.HeldIsReported | packages/core/ownership-claim.ts:667-700 | While an exclusive claim is not dead and all can be judged, a new attempt's own calls end with the answer that it is held, nothing published or staged, and the dead reaped. |
| ClaimLive.WaitsPublished | packages/core/ownership-claim.ts:667-748 | While only shared claims are not dead, a new exclusive attempt's own calls end with its record published and pending. |
| ClaimLive.SettlesExactly | packages/core/ownership-claim.ts:750-754 | From every state any run reaches, a pending exclusive claim with its record is acquired by its own settling calls if and only if every shared claim on record is dead. |
| ClaimLive.ResettlingEnds | packages/core/ownership-claim.ts:750-754 | In every run a call of settleClaim's inspection goes on, returns to pending on a refusal, or ends: acquired if it counted no shared claim, and else pending. |
| ClaimLive.ReleasedIsGone | packages/core/ownership-claim.ts:756-775 | In every run a release that no call refuses ends, and then the record and the child record are gone. |
| ClaimLive.ChildIsWritten | packages/core/ownership-claim.ts:777-809 | A holder with its record declares, records and clears its child, and nothing else changes. |
| ClaimLive.ClearingClears | packages/core/ownership-claim.ts:503-544 | From every state in which a live clearing call holds its claim, its own calls end it, cleared, with nothing staged. |
| ClaimEnds.StagedByPublisher | packages/core/ownership-claim.ts:611-647 | In every run, whatever is staged is what its thread's current publication is about to rename or remove: an attempt that published, gave up or failed has left nothing staged. |
| ClaimEnds.GivesUpAfterAll | packages/core/ownership-claim.ts:676-732 | In every run the last inspection comes exactly after 64 contended publications, and only an answer follows it. |
| ClaimEnds.LastLookAnswers | packages/core/ownership-claim.ts:732-748 | By its own calls the last inspection ends held exactly if some claim that is not dead stands in the attempt's way, and otherwise failed. |
| ClaimEnds.RecordsHaveHolders | packages/core/ownership-claim.ts:649-775 | In every run in which no call of a release is refused, each record on disk is of an attempt that has not ended: whatever throws or gives way after publication takes its record with it. |
| ClaimEnds.LastReleaseLeavesNothing | packages/core/ownership-claim.ts:756-775 | The release of the last claim, with nothing staged, leads by its own calls to no set at all: directories and root gone. |
| ClaimEnds.ClearedSetIsGone | packages/core/ownership-claim.ts:497-539 | In every run, a clearing call that holds the only claim leads to the set being gone, whatever others had staged. |
| ClaimEnds.BusySetIsLeft | packages/core/ownership-claim.ts:517-529 | In every run, a clearing call that is left pending leads to the answer that the set is held, its own record gone and what others have staged untouched. |
| ClaimWitness.SharedMayReturnLate | packages/core/ownership-claim.ts:689-730 | A run in which a shared attempt becomes acquired after an exclusive claim is published. |
| ClaimWitness.DeathInClearingBreaksExclusion | packages/core/ownership-claim.ts:503-544 | A run in which the clearing process dies inside a removal, after which two live processes hold the exclusive claim. |
| ClaimWitness.ThrowInClearingBreaksExclusion | packages/core/ownership-claim.ts:503-544 | The same without any death: the removal fails there and the clearing call releases its claim. |
| LocksAndSlots.ClaimsBalance | packages/core/dir-lock.ts:37-70 | For every nesting and every throwing body no lock's claim is taken while held, and all taken inside a call are dropped when it ends. |
| LocksAndSlots.ThrowsExactly | packages/core/dir-lock.ts:37-70 | An error reaches the caller exactly when some call, however deep, timed out or threw with nothing on the way to catch it. |
| LocksAndSlots.TakesExactly | packages/core/dir-lock.ts:37-70 | A claim is taken exactly when a call that is reached, its path not locked around it, gets it. |
| LocksAndSlots.DirLocks.WithDirLock | packages/core/dir-lock.ts:37-70 | Lock depths end as they were, whatever throws; a claim is taken and dropped around exactly the outermost body. |
| LocksAndSlots.DirLocks.RunBody | packages/core/dir-lock.ts:37-54 | The calls of a body run in order up to the first uncaught throw, leaving depths as they were. |
| LocksAndSlots.TryAcquireBuildSlot | packages/core/state/build-capacity.ts:34-62 | The first free slot; nothing for a positive maximum only if some slot was busy; the refusal only if every slot refused. |
| LocksAndSlots.AtMostMaxSlots | packages/core/state/build-capacity.ts:34-62 | With `max` slots, each under any interleaving, at most `max` holders have their record. |
| LocksAndSlots.UnclearedHaveRecords | packages/core/state/build-capacity.ts:34-62 | In a slot that nobody clears, as nobody clears build slots, those are all its holders. |
| NoiseHandshake.MessageSync | packages/core/noise.ts:248-287 | For every token pattern whose keys have crossed: what one side writes the other reads, with the payload, and both stay in one state. |
| NoiseHandshake.WritesIffItFits | packages/core/noise.ts:248-264 | A side can write on its turn if and only if the whole message is at most 1024 bytes. |
| NoiseHandshake.ReadsOnlyWhatFits | packages/core/noise.ts:266-288 | Whatever a read returns came in a message of at most 1024 bytes and is as long as the message without this turn's keys and tags; anything else throws, whoever made it. |
| NoiseHandshake.PatternsReady | packages/core/noise.ts:180-183 | Every token of XX and XXpsk2 finds the keys it uses. |
| NoiseHandshake.PatternsSize | packages/core/noise.ts:248-264 | The exact bytes each message's tokens take, and from when a key is mixed. |
| NoiseHandshake.Exchange | packages/core/noise.ts:248-287 | Each message can be written exactly up to 992 or 976, 928 and 960 payload bytes, and is then read. |
| NoiseHandshake.Agreement | packages/core/noise.ts:143-351 | For both protocols and all keys, prologues, PSKs and payloads within the limits: both sides complete with one hash and chaining key, read each other's payloads and static keys, and split into crosswise equal keys. |
| NoiseSchedule.KeySchedule | packages/core/noise.ts:84-351 | For both protocols, all parties and payloads within the limits: the three wire messages, the chaining key, the hash and the split keys are written out as chains of the primitives over the keys, the PSK, the prologue and the payloads. |
| NoiseSchedule.StartsExactly | packages/core/noise.ts:220-233 | The constructor returns exactly when XXpsk2 is given a PSK of 32 bytes and XX none, and then begins from the padded or hashed name and the prologue, without a key. |
| NoiseSchedule.WrongPskIsRefused | packages/core/noise.ts:266-336 | Two sides that differ in the PSK only: the initiator's read of message 2 throws, whenever the two derived keys are apart. |
| NoiseSchedule.WrongPrologueIsRefused | packages/core/noise.ts:220-225 | Two sides of XX that differ in the prologue only: the initiator's read of message 2 throws, whenever the key binds the two hashes apart. |
| NoiseSchedule.WrongPrologueIsRefusedAtOnce | packages/core/noise.ts:220-225 | In XXpsk2 already the responder's read of message 1 throws. |
| NoiseRuns.TurnsAlternate | packages/core/noise.ts:300-314 | Over every sequence of calls messages alternate by role and the index counts them, never past the pattern. |
| NoiseRuns.ErrorsAndSplitsStick | packages/core/noise.ts:289-314 | Over every sequence of calls, after a write or read that threw every later call throws, and split returns at most once. |
| NoiseRuns.ThrownSplitChangesNothing | packages/core/noise.ts:290-298 | A split that throws leaves the handshake as it was. |
| NoiseRuns.NoncesNeverRepeat | packages/core/noise.ts:110-124 | In every run of a keyed cipher state no nonce encrypts twice and 2^64-1 never does. |
| NoiseRuns.SplitKeysPair | packages/core/noise.ts:289-298 | A finished handshake gives two transports over one pair of keys. |
| NoiseRuns.ReturnsAPrefix | packages/core/noise.ts:399-431 | Under every drop, replay, reordering and alteration, what a side returned is a prefix of what the other encrypted; an arrival is returned exactly when it is the next in order and within the limit, and else closes. |
| NoiseRuns.ClosedForGood | packages/core/noise.ts:414-431 | A closed transport returns and sends nothing more in any continuation. |
| NoiseRuns.SendKeeps | packages/core/noise.ts:399-412 | Sending keeps the two directions in step: an open transport within its limit and counter sends the sealed type byte and body, an oversized message changes nothing, and the last counter closes. |
| NoiseRuns.UnframesExactly | packages/core/noise.ts:414-431 | What authenticates is a message exactly if it is a type byte and a body, of UTF-8 for text. |
| NoiseState.CipherState.EncryptWithAd | packages/core/noise.ts:110-116 | The new key, counter and ciphertext are those of the model. |
| NoiseState.CipherState.DecryptWithAd | packages/core/noise.ts:118-124 | Likewise for decryption; a failure consumes no counter. |
| NoiseState.SymmetricState.MixKeyAndHash | packages/core/noise.ts:153-158 | The chaining key, hash and fresh cipher state are those of the model. |
| NoiseState.SymmetricState.DecryptAndHash | packages/core/noise.ts:166-170 | The ciphertext is mixed into the hash only when it authenticates. |
| NoiseState.HandshakeState.WriteMessage | packages/core/noise.ts:248-264 | The token loop computes the model's message and state; a throw sets failed and moves neither index nor split. |
| NoiseState.HandshakeState.ReadMessage | packages/core/noise.ts:266-287 | The token loop, with its running offset, computes the model's payload and state, or fails likewise. |
| NoiseState.HandshakeState.Split | packages/core/noise.ts:289-298 | Two fresh, distinct cipher states with the model's keys, once. |
| NoiseState.NoiseTransport.Encrypt | packages/core/noise.ts:399-412 | The sealed frame, counter and closing of the model. |
| NoiseState.NoiseTransport.Decrypt | packages/core/noise.ts:414-431 | The typed message, counter and closing of the model. |
| NoiseWitness.LawsAreConsistent | packages/core/noise.ts:40-90 | One suite satisfies every law asked of the primitives, so the theorems are not empty. |
| NoiseWitness.PsksCanBeApart | packages/core/noise.ts:326-351 | The hypothesis about two PSKs can be met in a lawful suite. |
| NoiseWitness.ProloguesCanBeBound | packages/core/noise.ts:205-215 | And the one about two prologues. |
| NoiseWitness.EarlySplitIsNotFinal | packages/core/noise.ts:289-314 | A split before the last message throws and the next write returns. |
| FirstMessage.ParseInvertsPrefix | packages/core/noise-session.ts:91-120 | A prefix and a message come apart into mode, lookup, prefix and message exactly when within 1042 bytes. |
| FirstMessage.ParsedIsPrefixed | packages/core/noise-session.ts:91-120 | Whatever parses is a prefix handshakePrefix writes, and the message behind it. |
| FirstMessage.PrefixBytes | packages/core/noise-session.ts:91-96 | The prefix byte by byte, and exactly when there is one. |
| FirstMessage.ErrorsExactly | packages/core/noise-session.ts:103-120 | Which first messages are of another version, and which fail otherwise. |
| FirstMessage.PrologueBinds | packages/core/noise-session.ts:122-125 | Equal prologues come only from equal modes and lookups. |
| FirstMessage.FirstMessageArrives | packages/core/noise-session.ts:91-125 | For every mode, lookup, key, PSK and payload within the limit the server recovers them all and reads the payload. |
| JobFrames.ReadsWhatWasWritten | packages/core/noise-session.ts:544-570 | Every list of messages within the server limit is read back, with types, and nothing is left. |
| JobFrames.RefusesTheOversized | packages/core/noise-session.ts:544-570 | A frame is refused if and only if its message is over the server limit. |
| JobFrames.NothingLost | packages/core/noise-session.ts:557-570 | Every byte stream is the frames read from it, written again, and then the rest. |
| JobFrames.FrameBytes | packages/core/noise-session.ts:544-550 | A frame byte by byte: its length, most significant byte first, its type and the message. |
| JobFrames.RefusedExactly | packages/core/noise-session.ts:557-570 | The reader throws exactly at a length of 0 or over the limit, or a whole frame of no type. |
| JobFrames.RestHoldsNoFrame | packages/core/noise-session.ts:557-570 | What the reader keeps holds no whole frame. |
| JobFrames.ChunkingIsInvisible | packages/core/noise-session.ts:553-570 | For every stream and every cut into chunks: the same frames and rest as at once, and a throw exactly when the stream holds a refused frame. |
| JobFrames.ReaderInvertsFrames | packages/core/noise-session.ts:542-576 | The reader inverts jobFrame under every chunking, leaving nothing partial. |
| JobFrames.ThrowsForGood | packages/core/noise-session.ts:557-570 | After a throw every later push throws. |
| JobFrames.JobFrameReader.Push | packages/core/noise-session.ts:557-570 | The loop returns the stream's whole frames and keeps its rest, or throws at the first refused frame. |
| OversightWake.SecondLook | packages/core/oversight.ts:389-712 | With nothing changed, a second look before the wake-up time says nothing if and only if no idle workspace is driven with "started" on outside quiet hours; and it asks for the same time. |
| OversightWake.SilentUntilWake | packages/core/oversight.ts:389-712 | However often it looks before the wake-up time, or ever when there is none, nothing is said while nothing changes. |
| OversightWake.AnnouncedAgain | packages/core/oversight.ts:485-500 | An idle, driven workspace that is announced at the second look too. |
| OversightWake.WorkspaceAgain | packages/core/oversight.ts:485-683 | The same for one workspace, through all of its rules. |
| OversightWake.PendingAgain | packages/core/oversight.ts:820-923 | Before the wake-up time no attention item appears; items only age out. |
| OversightEpisodes.DiskOncePerEpisode | packages/core/oversight.ts:437-452 | Two disk notifications have between them a look with no known volume under the recovery threshold. |
| OversightEpisodes.MemoryOncePerEpisode | packages/core/oversight.ts:454-463 | Two memory notifications have between them a look with known, uncritical pressure. |
| OversightEpisodes.LinkOncePerEpisode | packages/core/oversight.ts:427-435 | Two link notifications have the link change between them. |
| OversightEpisodes.StoppedOncePerRun | packages/core/oversight.ts:518-538 | "Agent stopped" repeats only after a look, the first or later, that found the workspace idle or forgot it. |
| OversightEpisodes.StuckOncePerStandstill | packages/core/oversight.ts:516-549 | Two "stuck" notifications have newer work, or the workspace's being forgotten, between them. |
| OversightEpisodes.LoopOncePerCause | packages/core/oversight.ts:551-566 | Two "failing in a row" notifications have between them a look that did not see that cause's row. |
| OversightEpisodes.AttentionOncePerAllowance | packages/core/oversight.ts:601-635 | Two attention notifications have between them a look with nothing pending, the workspace leaving idle, or its being forgotten. |
| OversightEpisodes.OneItemPerLook | packages/core/oversight.ts:620-634 | One look raises at most one attention notification of a workspace. |
| OversightQuiet.QuietLookIsSilent | packages/core/oversight.ts:394-406 | No look in quiet hours and no first look says anything. |
| OversightQuiet.DiskAfterQuiet | packages/core/oversight.ts:437-452 | A disk that ran low in quiet hours and has not recovered is told of at the first look after them, and not before. |
| OversightQuiet.MemoryAfterQuiet | packages/core/oversight.ts:454-463 | The same for memory pressure that has lasted its settle time. |
| OversightQuiet.LinkAfterQuiet | packages/core/oversight.ts:427-435 | The same for a link that stays down the same way and has been for its settle time. |
| OversightQuiet.StuckAfterQuiet | packages/core/oversight.ts:540-549 | The same for a standstill found at that look. |
| OversightQuiet.LoopAfterQuiet | packages/core/oversight.ts:551-566 | The same for builds failing in a row at that look from a cause not told of before, whatever the quiet looks read. |
| OversightQuiet.AttentionAfterQuiet | packages/core/oversight.ts:601-635 | The same for what needs a person at that look, while the allowance is unspent, whatever the quiet looks read: exactly one notification, for the first pending item not noted before. |
| OversightEvents.EventsAreNotMadeUpFor | packages/core/oversight.ts:394-398 | Two runs that read the same under any preferences say the same events at each look where both may speak: an event missed is never said later. |
| OversightOwed.WarmingExactly | packages/core/oversight.ts:485-489 | Over every run "warming" is said exactly by a look that may speak and finds the workspace warming, when no look since its last session's end did. |
| OversightOwed.DrivingExactly | packages/core/oversight.ts:490-500 | "Driving" is said exactly by a look that may speak and finds an agent driving, when none drove since the session's end or the last stop. |
| OversightOwed.StoppedExactly | packages/core/oversight.ts:508-538 | "Agent stopped" is said exactly by a look that may speak when an agent drove and nobody drives, the newest build is green and none runs, the session is over or every sign of work is five minutes old, and it did not stop before in the session. |
| OversightOwed.RememberedExactly | packages/core/oversight.ts:702-710 | A workspace is remembered exactly while it is listed, or was and has not been absent for two minutes. |
| OversightMerges.PrReadyExactly | packages/core/oversight.ts:569-580 | "Ready for review" is said exactly by a look that may speak and finds the pull request turned so since it was last looked up. |
| OversightMerges.PrMergedExactly | packages/core/oversight.ts:581-588 | "Merged" is said exactly by a look that may speak and finds it turned so, when no merge counts as told. |
| OversightMerges.BranchMergedExactly | packages/core/oversight.ts:589-599 | The branch's merge is told exactly when git finds it turned so, and neither the pull request nor an earlier look told of a merge. |
| OversightLasting.DiskExactly | packages/core/oversight.ts:437-452 | The disk is told of exactly when a volume is under 5 GB, or 6 GB within an episode, and was not told of in it; and what the state then holds. |
| OversightLasting.MemoryExactly | packages/core/oversight.ts:454-463 | Memory pressure is told of exactly when it was known before, has lasted a minute and was not told of; and what the state then holds. |
| OversightLasting.LinkExactly | packages/core/oversight.ts:427-435 | The link is told of exactly when it is down, untold, and has settled; and what the state then holds. |
| OversightLasting.StuckExactly | packages/core/oversight.ts:540-549 | "Stuck" is said exactly when an agent's work stands still, its last sign as old as the preference says and newer than what was told; and what the state then holds. |
| OversightLasting.LoopExactly | packages/core/oversight.ts:551-566 | "Failing in a row" is said exactly when the three newest builds failed from one cause that was not told of; and what the state then holds. |
| OversightLasting.PendingExactly | packages/core/oversight.ts:820-900 | What needs a person is exactly the four kinds of items, each by its reading. |
| OversightLasting.AttentionExactly | packages/core/oversight.ts:601-635 | It is told of exactly by a look that may speak with the allowance unspent, and then of the first item not noted before. |
| OversightLasting.NotedExactly | packages/core/oversight.ts:624-632 | Which items a look notes. |
| OversightOrder.NotesInOrder | packages/core/oversight.ts:637-714 | For every look, the machine's notifications come first, then each workspace's in the order of the status, and for one workspace in the order of the rules. |
| OversightDue.NotesName | packages/core/oversight.ts:408-481 | Every notification has the category and target of its kind. |
| OversightDue.WakesExactly | packages/core/oversight.ts:389-392 | The wake-up time is exactly the earliest time at which, if nothing happens, a rule becomes due. |
| OversightLook.Run.OverseeWorkspace | packages/core/oversight.ts:637-683 | The rules, updating the entry in place, give the model's entry, notifications and wake-up times. |
| OversightLook.Run.RaisePending | packages/core/oversight.ts:620-634 | The loop over pending items gives the model's kept items, allowance and notifications. |
| OversightLook.CountStreak | packages/core/oversight.ts:347-372 | The loop counts the head failures that share the newest one's cause. |
| OversightLook.ItemsPending | packages/core/oversight.ts:820-900 | The loops find the items and the earliest time another may be due. |
| OversightLook.LastActivityAt | packages/core/oversight.ts:301-318 | The latest readable time of all signs of work. |
| OversightLook.Remember | packages/core/oversight.ts:707-709 | An absent workspace's entry stays until it is forgotten. |
| OversightLook.Oversee | packages/core/oversight.ts:691-712 | The whole look: state, notifications in order, and the earliest wake-up time. |
| UnitWords.WordsRoundTrip | packages/core/systemd-unit.ts:8-33 | Every list of strings, in command lines or not, is read back exactly from its quoted words. |
| UnitWords.UnescapeAll | packages/core/systemd-unit.ts:8-30 | Unescaping undoes escaping for every string, whatever the runs of percent signs, dollars and backslashes. |
| UnitWords.InsideEscaped | packages/core/systemd-unit.ts:18-24 | A quoted word ends at the quote that was put there. |
| UnitWords.ReadsExactly | packages/core/systemd-unit.ts:16-33 | Every line is read as some words if and only if it is made of them, quoted or bare, with spaces around them. |
| UnitWords.UnescapeExactly | packages/core/systemd-unit.ts:25-30 | Every raw word is made of escapes, doubled signs and plain characters, the longest at each place, and means what they mean. |
| UnitWords.OnePieces | packages/core/systemd-unit.ts:25-30 | And in one way only. |
| UnitWords.WrittenOnOneLine | packages/core/systemd-unit.ts:8-13 | A written word holds no newline, tab or carriage return. |
| UnitWords.UnitWords | packages/core/systemd-unit.ts:16-33 | The loop ends on every line with the words the pattern finds, or null. |
| DevicePinning.AcceptedExactly | packages/agent-driver-agent-device/driver.ts:1479-1553 | For every rule table a tree is accepted if and only if at every depth the command is known, its positionals pass, no other device is named, the runtime is empty, only allowed keys, no host input and no shutdown are asked, and batches are arrays of objects without a recording. |
| DevicePinning.RefusalIsTrue | packages/agent-driver-agent-device/driver.ts:1479-1553 | A refusal names a rule that some command of the tree does break. |
| DevicePinning.PinnedTree | packages/agent-driver-agent-device/driver.ts:1555-1590 | For every rule table and accepted tree: the same commands depth first, with all their flags and inputs ask for, each confined to the leased device and its allowed keys, with no host path and no shutdown, no recording in a batch, and pinning twice is pinning once. |
| DevicePinning.NodeConfined | packages/agent-driver-agent-device/driver.ts:1555-1590 | Every accepted command at every depth is confined once pinned. |
| DevicePinning.StepsAccepted | packages/agent-driver-agent-device/driver.ts:1538-1551 | An accepted batch has only accepted object steps and no recording. |
| MetroLinks.Conservation | packages/core/metro-bridge.ts:35-76 | In every sequence of calls links and takers never both wait, at most 16 links idle, each link is idle, handed, removed or closed exactly as often as accepted, each taker waits or was answered once. |
| MetroLinks.NewestLinkOldestTaker | packages/core/metro-bridge.ts:39-69 | In every sequence of calls take gives the link accepted last, add at the limit closes the one accepted first, and serves the taker that came first. |
| MetroLinks.FirstComeFirstServed | packages/core/metro-bridge.ts:39-69 | In every sequence of calls takers are given links in the order they came. |
| MetroLinks.WhatLeaves | packages/core/metro-bridge.ts:51-75 | What remove, a timeout and close take away. |
| MetroLinks.ClosedForGood | packages/core/metro-bridge.ts:70-75 | Once closed the pool stays so and takes no link. |
| MetroLinks.TimeoutsAreOwn | packages/core/metro-bridge.ts:55-69 | A timeout never ends another taker's wait. |
| MetroLinks.Links.AddLink | packages/core/metro-bridge.ts:40-50 | The oldest taker is served, else the link idles, closing the oldest at the limit; false once closed. |
| MetroLinks.Links.TakeLink | packages/core/metro-bridge.ts:55-69 | The newest idle link, or null once closed, or a place in the queue. |
| MetroLinks.Links.TimeOut | packages/core/metro-bridge.ts:63-66 | Removes the taker by its index and answers null. |
| AgentEvents.IncrementalIsOneShot | packages/core/state/agent-actions.ts:188-208 | For a growing file read at any moments, all reads together find what one reading up to the last line end seen finds, each line once. |
| AgentEvents.ParseAgentEvents | packages/core/state/agent-actions.ts:45-89 | The loop over lines gives the events, starts, finishes, first session and first unknown version in order. |
| AgentEvents.ParseFinds | packages/core/state/agent-actions.ts:45-89 | What a parse finds, by the lines' fields: which lines give events, with failed on the failed requests alone, starts and finishes, in order; the first session and the first unknown version. |
| AgentEvents.SplitIsExact | packages/core/state/agent-actions.ts:343-343 | The lines hold no newline and joined by newlines are the text. |
| AgentEvents.ParseBatches | packages/core/state/agent-actions.ts:344-353 | Batches of 500 lines change nothing. |
| AgentEvents.CursorReadsOnce | packages/core/state/agent-actions.ts:333-353 | A new cursor on one growing file, with any reads failing between, adds up to one reading of it to the last line end seen, each line once. |
| AgentEvents.RotationRestarts | packages/core/state/agent-actions.ts:331-353 | Wherever the cursor stood, once it finds the file shrunk or replaced its visits read each line of the new file once. |
| AgentEvents.SessionCursor.Read | packages/core/state/agent-actions.ts:333-353 | One visit gives the cursor and what is parsed: a file that shrank or was replaced is read again from its start and the second answer's identity kept; a read that fails changes nothing. |

## Left out

- Claims, Windows: settling of answers, yielding to removals and EPERM handling; the model has POSIX rename and rmdir.
- Claims, answers: which processes are alive is a set that only grows; an unreadable or unknown answer, the order of a
  listing and a recycled group id are choices of the environment, taken in every way.
- Claims, calls: removing one's own staging entry is one step; removing another's in a clearing is two, each of which
  may be refused. The read-only inspection at the end of clearFreeClaimSet, error texts and remedies are not modelled.
- Claims, form: the claim set is a shared directory changed by many processes, so it is a transition system and not one
  object; a claim id names the thread and its attempt, fresh by construction.
- Claims, progress: what an attempt's own calls lead to is stated with the other threads standing still. Under
  contention there is no such promise: 64 contended publications end an attempt.
- LateExactly: its second half leaves out the attempt that is just asking whether an older exclusive claim is held;
  there the answer, and who dies before it is given, decides.
- Noise primitives: SHA-256, HMAC, X25519, ChaCha20-Poly1305 and UTF-8 are parameters with laws. That two counters never
  give one ciphertext, that the network cannot make ciphertexts under a key it lacks, and, for the refusals of a wrong
  PSK or prologue, that two derived keys are apart or a key binds two hashes are idealised, each as a law on the keys of
  that run.
- Noise, after a throw: the contracts leave the symmetric state of a failed handshake open; every later call throws.
- Noise, setNonce: left out; it is for reproducing published vectors.
- NoiseSocket, initiateNoise and acceptNoise: event plumbing, timers and close codes.
- Oversight, text: titles, bodies and byte formatting; a notification keeps its kind, category and target. Flattening
  slots into a device list (devicesOf), quiet-hour arithmetic and the needs-attention listing are easy and left out, as
  are the "looping" and "stuck" attention items, which a look skips.
- Oversight, paths: the theorems about workspaces over runs take each status to list a path once. Times are integers.
- Systemd units: unitLines and what systemd itself makes of a unit.
- Device pinning: pinDeviceRequest's lease methods and metadata, the wording of refusals, and the contents of the rule
  table, which is a parameter.
- Metro bridge: the server and its sockets.
- Agent events: device attribution, the open-request map, when a rotated file is read first and UTF-8 decoding; the file
  is text, cut at line ends, where decoding cannot split a character.
- Directory locks: the waiting loop is an answer, got in time or not. withDirLockAsync runs its body in the same two
  shapes as withDirLock and is not written out. withDirLockTransaction is different and is not modelled: it never
  touches lockDepths, is not reentrant, and holds its claim until an asynchronous body settles.
- Configuration, caches, CI, transports, plugins, protocol types, applications and the website.
