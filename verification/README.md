# Near-memory compute: verified model

A Dafny model of the near-memory compute coordinator and of what surrounds it: the planner, the durable state and its
integrity envelope, the wire messages and framing, and the coordinator process with its waiting clients. Every public
operation of the coordinator runs under one lock, so one operation is one atomic step; whole-run results range over
every sequence of operations in every order, with saves and restarts, and are carried over to the bytes of the file.

## How it is put together

- `Types`, `Doubles`, `Ordered`, `Names`, `Digest`: fixed-width integers, records, messages, doubles as bit patterns,
  sorted traversal, enumeration names, the output digest.
- `Planning`, `Selection`: hard filter, economics and ranking, and the proof that looking at the front of the ranking is
  enough.
- `Engine`: the coordinator's operations as functions from a state to the next state and the caller's outcome.
  `Coordinator`: the object whose methods change the maps in place, loop by loop, each proved to take the `Engine` step.
- `Runs`: sequences of actions, the saved state, and the identities handed out. `PlanLifecycle`, `Support`, `Results`,
  `Safety`, `Completions`, `History`, `Delivery`, `Ledger`, `Slots`, `Openings`, `Workspace`, `IndexScan`, `IndexKeys`,
  `Fates`, `WorkOrder`, `Withdrawal`, `Registry`: what every step keeps and what follows for whole runs. `Provenance`,
  `Judgement`: plans in the words of the last accepted messages. `Witness`: concrete runs on the failing side of the
  conditions.
- `Codec`, `Records`, `Durable`, `Checksum`, `Cursor`, `Persistence`, `Store`, `Restart`, `Lost`, `Misread`: durable state
  from the bit-serial checksum up to whole runs over the bytes of the file.
- `Wire`, `Lists`, `Frames`: messages, the bounded list loops, frames and streams.
- `Node`, `NodeSafety`, `WaitTable`, `Waiting`, `Stranding`, `Told`, `SentFrames`: the process with its connection
  handlers as interleaved steps.

`dafny verify dfyconfig.toml` checks the whole project.

## Where the code decides

- Cancelling a plan takes a slot off its target even if the plan never reserved one, and accepts a plan whose outcome is
  unknown (src/coordinator.cpp:739-749). The ledgers and the index are therefore not always exact:
  `Slots.SlotsAreHolders`, `Workspace.WorkspaceExactIff` and `IndexScan.RunIndex` say for every run exactly when they are,
  `Openings.OpenWithinIff` when the open plans stay within capacity all the same,
  and `Witness` gives concrete runs that break the slot ledger, the workspace ledger and the index.
- An operation bound to a program is written with the program before the description and read with the description first
  (src/coordinator.cpp:994-996, 1063). The round trip is stated for all states as an equivalence with `Persistable`;
  `Durable.BoundProgramIsLost` gives a family that fails and `Lost.SavedProgramIsLost` a two-step run into it; where the
  program id is the length of the description the file loads all the same, and `Misread` says what comes back.
- An operation that names a program without a generation makes the save throw; the model returns an error.
- A completion is not compared with the plan's target id (include/nmc/authority.hpp:62-82), and the live checks look up
  the target it names (src/coordinator.cpp:636-641). `Completions.AcceptedIff` says exactly which targets it may name,
  and `Witness.CommitsUnderAWrongName` commits under one that was never registered.
- A confidence that is not a number passes every threshold and compares with nothing, so the sort that is called a strict
  total order is not one on all inputs. `Planning.WeaklyOrdersIff` says exactly when the comparator orders; where it does
  not, C++ leaves the result of the sort open, and the model takes the one an insertion sort gives.
- A client enters the table of waiting clients after it looked its worker up, without looking again
  (apps/nmc_coordinator.cpp:208-224); `Waiting.AttendedIff` says exactly when nobody is left behind.
- The comment on generations calls them strictly increasing; an epoch change and a restart add one to a 64-bit value that
  wraps (src/coordinator.cpp:95, 1095), and a re-registration may carry any generation. The model follows the code.
- A frame with an altered length field is read with the altered length; `Frames.CorruptionIsCaught` is about the other
  bytes, and `Frames.AlteredLength` says exactly what happens for these four.
- A registration replaces capacity and budget without looking at what is reserved; `Slots.SlotsWithinCapacity` and
  `Workspace.WithinBudgetIff` say exactly when the counters stay within them.
- A comment says that a heartbeat cannot resurrect a terminal target (src/coordinator.cpp:265); a fence of its owner, a
  disconnection and an epoch change overwrite the terminal state, after which it does. `Withdrawal.TerminalLasts` says
  exactly when the state lasts and `Withdrawal.RetiredIsHeardAgain` gives a run.
- The hard filter does not reject a draining target (include/nmc/planning.hpp:54-63), so draining a degraded one makes it
  eligible for planning again, though not for reservation: `Judgement.EligibleByMessages`, `Withdrawal.AdmittedIff`.
- Every result frame answers whoever waits for its dispatch, accepted or not (apps/nmc_coordinator.cpp:154-172), so a
  refused one can reach a client before the one that commits: `Told.HearsOfCommitIff`.

## Model

| member | source | states |
|---|---|---|
| Names.ParseName | include/nmc/enums.hpp:195-209 | the search loop returns the first code whose name is the text, or none |
| Names.ParseInvertsNameOf | include/nmc/enums.hpp:114-190 | parsing the name of a code gives the code back if and only if the code is in its table, for every table |
| Codec.FromLittleInverts | include/nmc/codec.hpp:81-87 | reading back a little-endian integer of n bytes gives the integer, for every value below 256^n |
| Codec.ParsedIsPrinted | include/nmc/codec.hpp:81-87 | bytes that yield an integer are exactly the printing of that integer followed by what is left |
| Codec.PutBlob | include/nmc/codec.hpp:103-106 | a length-prefixed blob comes back with its suffix untouched if and only if it is within the 64 MiB limit |
| Codec.GetBlob | include/nmc/codec.hpp:50-61 | no blob longer than the limit is ever returned |
| Codec.PutName | src/coordinator.cpp:51-61 | an enumeration written by name comes back when its code is in the table |
| Codec.GetName | src/coordinator.cpp:53-61 | only codes in the table are ever decoded |
| Codec.ListRoundTrip | src/coordinator.cpp:1059-1059 | a list comes back with its suffix untouched if and only if it is within the reader's cap and all its elements return |
| Codec.ListRange | src/coordinator.cpp:1059-1059 | a decoded list is within the cap and holds only values its element decoder can return |
| Cursor.ByteReader.ReadSpan | include/nmc/codec.hpp:39-47 | the cursor takes exactly n bytes or refuses and does not move |
| Cursor.ByteReader.ReadU16 | include/nmc/codec.hpp:82-87 | the cursor read agrees with the integer parser on the unread bytes |
| Cursor.ByteReader.ReadU32 | include/nmc/codec.hpp:82-87 | the cursor read agrees with the integer parser on the unread bytes |
| Cursor.ByteReader.ReadU64 | include/nmc/codec.hpp:82-87 | the cursor read agrees with the integer parser on the unread bytes |
| Cursor.ByteReader.ReadBlob | include/nmc/codec.hpp:50-61 | the cursor read agrees with the blob parser, limit and truncation included |
| Cursor.ByteWriter.WriteRaw | include/nmc/codec.hpp:108-110 | bytes are appended and nothing else changes |
| Cursor.ByteWriter.WriteInt | include/nmc/codec.hpp:97-99 | the loop appends the little-endian printing of the value |
| Checksum.BuildTable | include/nmc/checksum.hpp:33-45 | the nested loops fill the table with eight bit-serial shifts of every index |
| Checksum.ShiftHigh | include/nmc/checksum.hpp:14-19 | eight bit-serial shifts of a register are its high bytes moved down, xor the shifts of its low byte |
| Checksum.Lookup | include/nmc/checksum.hpp:17-17 | one table-driven step is one bit-serial step |
| Checksum.Crc32.Update | include/nmc/checksum.hpp:14-19 | the table-driven update computes the bit-serial 0xEDB88320 checksum of every byte sequence |
| Checksum.CrcConcat | include/nmc/checksum.hpp:14-19 | the checksum composes over concatenation |
| Checksum.AbsorbInjective | include/nmc/checksum.hpp:17-17 | one step is injective in the register for a fixed byte and in the byte for a fixed register |
| Checksum.CrcInjective | include/nmc/checksum.hpp:14-19 | the checksum of a fixed input is injective in the starting register |
| Checksum.OneByteChangesCrc | include/nmc/checksum.hpp:14-19 | two inputs of equal length that differ in exactly one byte never share a checksum |
| Persistence.PayloadCrc | src/persistence.cpp:47-55 | the checksum fed field by field is the checksum of header and payload |
| Persistence.BuildEnvelope | src/persistence.cpp:57-74 | the writer produces the envelope of the payload, or refuses one over the limit |
| Persistence.LoadEnvelope | src/persistence.cpp:114-135 | the reader's sequence of checks gives the outcome of `Open`, error code by error code |
| Persistence.LoadPayload | src/persistence.cpp:120-135 | the length, payload, trailing and checksum checks give the outcome of `OpenLength` |
| Persistence.OpenReturns | src/persistence.cpp:57-135 | every envelope the writer builds is opened to its payload |
| Persistence.OpenedIsEnvelope | src/persistence.cpp:114-135 | whatever is opened is the envelope of the payload returned |
| Persistence.OpenExact | src/persistence.cpp:114-135 | a byte string is accepted if and only if it is the envelope of some payload within the limit |
| Persistence.LengthIsChecked | src/persistence.cpp:120-131 | no proper prefix and no proper extension of an accepted file is accepted |
| Persistence.EveryByteIsChecked | src/persistence.cpp:114-135 | no file that differs from an accepted one in a single byte, at any position, is accepted |
| Records.PutDomain | src/coordinator.cpp:942-945 | a memory domain comes back from its own printing when its strings are within the limit |
| Records.PutDataset | src/coordinator.cpp:948-951 | a dataset comes back from its own printing when its strings are within the limit |
| Records.PutRegion | src/coordinator.cpp:954-959 | a region comes back when its enumeration codes are in their tables |
| Records.PutProgram | src/coordinator.cpp:962-971 | a program comes back when its codes are in their tables, its lists within 64 and its strings within the limit |
| Records.PutPolicy | src/coordinator.cpp:974-981 | a policy comes back when its codes are in their tables and its list within 64 |
| Records.TailExact | src/coordinator.cpp:994-996 | the program and description of an operation come back if and only if `TailOk`: no program, or bytes that happen to read the same in the decoder's other order |
| Records.OperationReturns | src/coordinator.cpp:984-997 | an operation that is `OperationOk` comes back with its suffix untouched |
| Records.OperationForced | src/coordinator.cpp:1063-1063 | an operation that comes back as itself is `OperationOk`, and one that decodes at all keeps its id |
| Records.PutTarget | src/coordinator.cpp:1000-1016 | a target definition comes back when its codes are in their tables and its lists within 64 |
| Records.PutPlan | src/coordinator.cpp:1020-1034 | a plan comes back with its authority record rebuilt from its own identity |
| Records.PutResult | src/coordinator.cpp:1037-1045 | a result comes back when its verification code is in the table and its strings within the limit |
| Durable.SectionExact | src/coordinator.cpp:940-1045 | one map section comes back if and only if it has at most 4096 entries, keyed by their own ids, all of which return |
| Durable.StateRoundTrip | src/coordinator.cpp:936-1071 | decoding the encoding of any state consumes all bytes and yields its durable projection if and only if the state is persistable |
| Durable.BoundProgramIsLost | src/coordinator.cpp:994-996 | for every state with an operation bound to a program whose id is not the length of the description, the durable projection does not come back |
| Durable.BoundProgramNotPersistable | src/coordinator.cpp:994-996 | such a state is not persistable |
| Store.LoadAfterSave | src/coordinator.cpp:1075-1114 | a saved file reads back as the durable projection if and only if the state was persistable, and loading it is then recovery applied to that projection |
| Store.DamagedFileIsRefused | src/persistence.cpp:110-142 | a file with one altered byte anywhere makes the load fail |
| Lost.SavedProgramIsLost | src/coordinator.cpp:984-997 | for every operation within the limits of the format and bound to a program whose id is not the length of its description: creating it and saving is an allowed run, the save succeeds, and its file does not read back as what was saved |
| Misread.OperationReads | src/coordinator.cpp:1063-1063 | an operation bound to a program whose id is the length of its description is accepted by the decoder, which stops where the record ends and returns the description, program and generation that `Seen` gives |
| Misread.SeenAsItIs | src/coordinator.cpp:994-996 | that is the operation that was written if and only if the bytes read the same with the fields on either side |
| Misread.DecodesAsSeen | src/coordinator.cpp:936-1071 | every state whose operations are unbound or of this kind, and which is otherwise persistable, decodes to its projection with each operation as it is seen |
| Misread.LoadsAsSeen | src/coordinator.cpp:1085-1114 | so its file is always loaded, and recovery is applied to what was seen |
| Misread.LoadedOperationIsAnother | src/coordinator.cpp:1085-1114 | creating any such operation, saving and starting again is an allowed run, and the new process holds the operation with another description, program or generation unless the bytes read the same both ways |
| Misread.EightLetters | src/coordinator.cpp:994-996 | eight letters under program 8 and generation 1: the description comes back as the bytes of the generation and the generation as the letters |
| Restart.FileHoldsDisk | src/coordinator.cpp:1073-1114 | along every run over the bytes of the file, failed saves and starts without a file that loads included, whose successful saves were of persistable states, the live state is that of the run model without the failed saves, and the bytes on disk read back as the state that run keeps for the disk |
| Restart.LoadsSucceed | src/coordinator.cpp:1085-1114 | on such a run every load accepts the file and starts from the recovered projection of the last saved state |
| Restart.OneResultAcrossFiles | src/coordinator.cpp:618-722 | on every run over the bytes of the file whose successful saves were of persistable states: at most one result per plan, committed exactly for a committed plan, verified, and reproducing what the plan pinned |
| Restart.RevocationAcrossFiles | src/coordinator.cpp:753-838 | on such a run an uncommitted plan whose authority a fence, disconnect, retirement, epoch change or load from the file revoked is never committed again, and no completion for it changes the state |
| Restart.RankAcrossFiles | src/coordinator.cpp:93-122 | on such a run a plan on record at two points has not moved backwards |
| Planning.HardFilter | include/nmc/planning.hpp:44-117 | the reasons are empty if and only if the target is eligible, each reason appears exactly when it objects, and missing evidence gives the single offline reason |
| Planning.TargetReasons | include/nmc/planning.hpp:54-63 | the target reasons appear exactly when they object |
| Planning.OperationReasons | include/nmc/planning.hpp:64-81 | the support reasons appear exactly when they object |
| Planning.DataReasons | include/nmc/planning.hpp:83-88 | the data reasons appear exactly when they object |
| Planning.ResourceReasons | include/nmc/planning.hpp:90-105 | the workspace, concurrency and program reasons appear exactly when they object |
| Planning.AuthorityReasons | include/nmc/planning.hpp:107-114 | the authority and confidence reasons appear exactly when they object; confidences compare as doubles, negative values and values that are not a number included |
| Planning.EligibleWithoutObjections | include/nmc/planning.hpp:44-117 | eligibility, stated without order or lists, is the absence of all objections |
| Planning.ChoosePath | include/nmc/economics.hpp:96-126 | near-memory is selected if and only if its total is not more than the conventional total |
| Planning.BeforeIsStrictTotalOrder | include/nmc/planning.hpp:137-146 | for all confidences the five-key comparator is irreflexive, asymmetric and transitive; it decides between two targets if and only if they do not tie on the first three keys with a confidence that is not a number, and its indecision is transitive where it decides |
| Planning.WeaklyOrdersIff | include/nmc/planning.hpp:137-146 | on any candidates the comparator is the strict weak order a sort needs if and only if no candidate whose confidence is not a number ties with two whose confidence is one |
| Planning.NotANumberTearsTheOrder | include/nmc/planning.hpp:137-146 | a concrete triple, confidences 0.9, not a number and 0.5, on which it is not |
| Doubles.CodesAreValues | include/nmc/planning.hpp:143-143 | on finite doubles, denormals and both zeros included, the comparisons on bit patterns are the comparisons of the values the bits stand for |
| Planning.RankedOrdered | include/nmc/planning.hpp:137-146 | ranking yields an ordered sequence |
| Planning.RankingUnique | include/nmc/planning.hpp:137-146 | two ordered arrangements of the same candidates with distinct identities, no two of which tie around a confidence that is not a number, are the same sequence, so any sort gives this ranking |
| Planning.RankingIgnoresInputOrder | include/nmc/planning.hpp:134-146 | the ranking of such candidates is the same for every order in which they were collected |
| Planning.TwoInEitherOrder | include/nmc/planning.hpp:137-146 | for two candidates the ranking is the same in either order if and only if they do not tie around a confidence that is not a number |
| Planning.RankCandidates | include/nmc/planning.hpp:137-146 | the loop returns an ordered permutation of its input |
| Planning.FrontIsLeast | include/nmc/planning.hpp:137-146 | no candidate precedes the front of the ranking, and the front precedes every candidate the comparator can tell it from |
| Selection.FiveKeysAreThree | src/coordinator.cpp:426-439 | on candidates the planner builds, the five-key order is cost, then confidence, then identity, with no bound on the 64-bit sums, and it is undecided exactly on equal costs with a confidence that is not a number |
| Selection.CandidatesComplete | src/coordinator.cpp:369-437 | every eligible target becomes a candidate |
| Selection.CandidatesDistinct | src/coordinator.cpp:369-437 | no target becomes a candidate twice |
| Selection.FrontIsBest | src/coordinator.cpp:439-456 | if any target is eligible, the front of the ranking is an eligible one that none costs less than or beats, and that beats every other it can be told from |
| Selection.PlansIffWorthUsing | src/coordinator.cpp:352-503 | for a registered operation with a known policy and no active key, a plan is created if and only if some eligible target costs no more than moving the data |
| Selection.PlansTheBest | src/coordinator.cpp:439-456 | the plan's target is worth using; no eligible target costs less or is better by cost, confidence and identity, and it is better than every one it can be told from |
| Selection.RefusalIsExplained | src/coordinator.cpp:441-456 | when nothing is planned the state is unchanged and the decision says whether no target was eligible or none was worth using |
| Selection.CostsAreExact | include/nmc/economics.hpp:64-118 | while the sums stay below 2^64 the costs compared are the exact sums of their terms |
| Engine.Created | src/coordinator.cpp:458-503 | a created plan is for an eligible target and is the only change; planning without one leaves the state alone |
| Coordinator.Sweep | src/coordinator.cpp:97-119 | the loop visits every entry of a map and replaces it, keeping the keys |
| Coordinator.RebuildIndex | src/coordinator.cpp:279-289 | the rebuild loop leaves, for each operation with an active plan, the last such plan in key order |
| Coordinator.IndexGrows | src/coordinator.cpp:279-289 | scanning one more plan with a larger key overwrites the entry of its operation exactly when the plan is active |
| Coordinator.FindSession | src/coordinator.cpp:568-574 | the loop finds the session of the incarnation with the smallest worker id, if there is one |
| Coordinator.CollectEntries | src/coordinator.cpp:227-236 | later capability entries replace earlier ones with the same key |
| Coordinator.CollectCandidates | src/coordinator.cpp:369-437 | the loop over targets in key order collects exactly the candidates the specification names |
| Coordinator.Staleness | src/coordinator.cpp:296-345 | the reasons collected are exactly the dimensions in which the plan is out of date, and none are collected if and only if it is fresh |
| Coordinator.FreshIsNotStale | src/coordinator.cpp:296-345 | freshness is the absence of staleness in every dimension |
| Coordinator.ValidateCompletion | include/nmc/authority.hpp:62-82 | the reasons collected are exactly the pinned dimensions that differ; the target id is not compared |
| Coordinator.Coordinator.constructor | src/coordinator.cpp:68-78 | a new coordinator has epoch 1 and the built-in default policy |
| Coordinator.Coordinator.CreateOperation | src/coordinator.cpp:165-171 | takes the step `Engine.CreateOperation`, which never replaces an operation |
| Coordinator.Coordinator.RegisterPolicy | src/coordinator.cpp:156-163 | takes the step `Engine.RegisterPolicy`, which reserves policy 1 and never replaces a policy |
| Coordinator.Coordinator.ApplyRegisterTarget | src/coordinator.cpp:184-213 | takes the step `Engine.RegisterTarget`: a new definition and a runtime without dynamic evidence |
| Coordinator.Coordinator.ApplyHeartbeat | src/coordinator.cpp:260-277 | takes the step `Engine.Heartbeat`, which a terminal target refuses |
| Coordinator.Coordinator.ApplyCapability | src/coordinator.cpp:215-240 | takes the step `Engine.PublishCapability` |
| Coordinator.Coordinator.AdvanceEpoch | src/coordinator.cpp:93-122 | the four loops and the rebuild take the step `Engine.AdvanceEpoch` |
| Coordinator.Coordinator.MakePlan | src/coordinator.cpp:352-503 | filter, cost, rank and build take the step `Engine.MakePlan`; for which targets, from which messages and with which pins is `Selection.PlansIffWorthUsing`, `Judgement.PlannedByMessages` and `Judgement.PlanPinsMessages` |
| Coordinator.Coordinator.Reserve | src/coordinator.cpp:505-540 | takes the step `Engine.Reserve`, leaving a reservation entry behind even when it refuses |
| Coordinator.Coordinator.CheckAdmission | src/coordinator.cpp:517-531 | the admission checks in the order of the source, the unchecked 64-bit addition included |
| Coordinator.Coordinator.PrepareDispatch | src/coordinator.cpp:542-603 | takes the step `Engine.PrepareDispatch`: a stale plan is superseded, a fresh one is bound to the dispatch; when it succeeds and what the message says is `WorkOrder.PreparesIff` and `WorkOrder.DispatchDescribesWork` |
| Coordinator.Coordinator.ConfirmDispatched | src/coordinator.cpp:605-616 | takes the step `Engine.ConfirmDispatched` |
| Coordinator.Coordinator.CheckCompletion | src/coordinator.cpp:618-662 | the checks a completion passes before anything changes, error code by error code |
| Coordinator.Coordinator.ApplyResult | src/coordinator.cpp:618-722 | takes the step `Engine.ApplyResult`: unknown, corrupt or committed; in all three the key leaves the index (`IndexKeys.KeyStep`) |
| Coordinator.Coordinator.Release | src/coordinator.cpp:715-720 | the guarded decrements of slots and workspace |
| Coordinator.Coordinator.CancelPlan | src/coordinator.cpp:734-751 | takes the step `Engine.CancelPlan` |
| Coordinator.Coordinator.FenceWorker | src/coordinator.cpp:753-785 | the loops take the step `Engine.FenceWorker`; what becomes of every plan and of what the incarnation vouched for is `Fates.SweepFate` and `Fates.FenceEvidence` |
| Coordinator.Coordinator.OnWorkerDisconnected | src/coordinator.cpp:787-820 | the loops take the step `Engine.Disconnect`, which does to plans and evidence what a fence does (`Fates.SweepFate`) and marks the sessions (`Fates.SessionsFollow`) |
| Coordinator.Coordinator.RetireTarget | src/coordinator.cpp:822-838 | the loop takes the step `Engine.RetireTarget` |
| Coordinator.Coordinator.RecoverFrom | src/coordinator.cpp:1091-1112 | recovery of a decoded state is `Engine.Recover` |
| Coordinator.Coordinator.ResultOf | src/coordinator.cpp:852-867 | a scan in any order finds a result of the plan if there is one, and the same one in every order when a plan has at most one |
| PlanLifecycle.EvolvesRank | include/nmc/enums.hpp:141-144 | along the lifecycle graph the rank never falls, committed is absorbing and only a dispatched plan commits |
| PlanLifecycle.StepMoves | src/coordinator.cpp:93-838 | every operation moves every plan only along the lifecycle graph, changes nothing pinned at planning, binds a dispatch only while the plan is reserved, and only planning adds a plan |
| Support.StepGrows | src/coordinator.cpp:124-277 | no operation but an epoch change removes an entry the staleness check reads, and no registered operation, program or policy is ever replaced |
| Support.PlanningSupports | src/coordinator.cpp:369-503 | a plan is created only when its target, runtime, capability, evidence, operation, policy and bound program are on record |
| Support.StepSupports | src/coordinator.cpp:296-345 | every step but an epoch change or a restart keeps all of that on record for every live plan, with the live plan pinned to the current epoch |
| Results.Accepted | src/coordinator.cpp:663-713 | an accepted completion closes its dispatched plan and stores one result that reproduces the pinned authority and the bound dispatch and attempt |
| Results.CompletionKeepsResults | src/coordinator.cpp:618-722 | a completion keeps at most one result per plan, and a committed one exactly for a committed plan |
| Safety.StepInv | src/coordinator.cpp:82-1114 | every action keeps the invariant of plans, results, supporting entries and saved state; a process starts from what the last save kept, which `Restart.FileHoldsDisk` shows of files of persistable states, or from a new coordinator |
| Safety.RunInv | src/coordinator.cpp:82-1114 | the invariant holds in every world reachable by any sequence of operations with fresh identities, with restarts from what the last save kept |
| Safety.OneResultPerPlan | src/coordinator.cpp:618-722 | in every reachable state, with restarts from what the last save kept (over file bytes: `Restart.OneResultAcrossFiles`), a plan has at most one result, a committed one if and only if it is committed, committed results are verified and unambiguous, and every result reproduces what its plan pinned |
| Safety.FreshIsCurrent | src/coordinator.cpp:296-345 | on every reachable state the staleness check with its optional lookups is exactly the check in which every entry must exist |
| Safety.DispatchIsCurrent | src/coordinator.cpp:542-603 | in every run a dispatch is prepared only while epoch, owner, target, capability, evidence, operation, policy, pinned program and observed dataset agree with the plan and all dynamic flags are current |
| Safety.CommitIsAuthorised | src/coordinator.cpp:634-666 | in every run a commit happens in the epoch of its planning, from a dispatched plan, and carries what was pinned and bound; if it names the plan's target, that target is on record with the pinned generation and owner |
| Completions.AcceptedIff | src/coordinator.cpp:634-666 | for every state and completion: naming target u it is accepted if and only if it repeats all that was pinned and bound and u, where it is on record, has the pinned generation and owner |
| Completions.UnknownTargetIsAccepted | src/coordinator.cpp:636-641 | a completion that repeats the plan is accepted under any target that is not on record |
| Completions.NamedTargetIff | src/coordinator.cpp:634-666 | in every run a completion that repeats the plan and names its target is accepted if and only if that target, which is then on record, still has the pinned generation and owner |
| Witness.CommitsUnderAWrongName | src/coordinator.cpp:636-641 | a concrete legal run: a plan is out and its target is registered anew; the completion is refused under the name of the target and committed, and stored, under a name nobody registered |
| Safety.ProjectKeeps | src/coordinator.cpp:1073-1083 | a save keeps every plan and result of a reachable state unchanged |
| Safety.DeadIgnoresResults | src/coordinator.cpp:624-631 | a completion for a plan that is closed without commit is refused and changes nothing |
| Safety.RevocationIsFinal | src/coordinator.cpp:753-838 | once a fence, disconnect, retirement, epoch change or restart from what the last save kept revokes the authority of an uncommitted plan, no continuation of the run commits it and every completion for it leaves the state unchanged (over file bytes: `Restart.RevocationAcrossFiles`) |
| Safety.RankNeverFalls | src/coordinator.cpp:93-122 | a plan on record at two points of a run, with or without restarts from what the last save kept in between, has not moved backwards (over file bytes: `Restart.RankAcrossFiles`) |
| Safety.CommittedForGood | src/coordinator.cpp:624-625 | with no restart in between a committed plan stays committed |
| History.Since | src/coordinator.cpp:184-277 | a flag that only some steps raise and others never leave up was raised at some step and not endangered since |
| History.BeatenSince | src/coordinator.cpp:260-277 | a target with current evidence has had an accepted heartbeat, and since then no re-registration, retirement, fence of its owner, epoch change or restart |
| History.RegisteredSince | src/coordinator.cpp:184-213 | a target on record was registered with no restart since |
| History.PublishedSince | src/coordinator.cpp:215-240 | current capabilities were published after the last epoch change or restart |
| History.ObservedSince | src/coordinator.cpp:242-258 | current data evidence was given after the last epoch change or restart |
| History.DispatchHasHistory | src/coordinator.cpp:542-603 | before every successful dispatch there is a heartbeat nothing has withdrawn, a registration before it with no restart after, and a capability publication and data evidence since the last epoch change or restart |
| Delivery.PreparedIsBound | src/coordinator.cpp:576-601 | the message of a prepared dispatch agrees with the plan and the live state in every field the completion is checked against |
| Delivery.BoundCommits | apps/nmc_worker.cpp:155-166 | the worker's echo of a bound, dispatched plan is committed with the worker's digest |
| Delivery.BoundStep | src/coordinator.cpp:618-662 | every step that does not disturb a dispatch, and is not another preparation of its reserved plan, keeps it bound |
| Delivery.GoneStep | src/coordinator.cpp:542-603 | a dispatch whose plan has closed or carries another dispatch can never be bound again |
| Delivery.FollowedStep | src/coordinator.cpp:542-616 | every undisturbing step, other preparations of the plan included, leaves a dispatch bound or gone for good |
| Delivery.HonestEchoCommits | apps/nmc_worker.cpp:155-166 | in every run in which a dispatch is prepared, its confirmation is later accepted, and no step in between or after withdraws its authority, cancels its plan or completes it, the worker's echo commits with the worker's digest; other preparations of the plan may come in between |
| Ledger.Booked | src/coordinator.cpp:505-540 | an admitted reservation was below capacity and budget and adds one slot and the operation's workspace to its target only |
| Ledger.ReleasedLedger | src/coordinator.cpp:715-720 | a release lowers the counters of the plan's target only |
| Slots.SlotsNeverExceedHolders | src/coordinator.cpp:505-751 | on every run the slot counter of a target is at most the number of its plans that reserved and have neither committed nor been cancelled, and every reserved or dispatched plan is among them |
| Slots.SlotsAreHolders | src/coordinator.cpp:505-751 | on every run the counters equal those numbers after every step if and only if every cancel hits such a plan or a target on which nothing is held |
| Slots.CancelKeepsLedger | src/coordinator.cpp:734-751 | a cancel keeps the counters exact if and only if the plan holds a slot or no plan holds one on its target |
| Slots.SlotsWithinCapacity | src/coordinator.cpp:505-540 | on every run no slot counter ever exceeds its capacity if and only if no accepted registration sets a capacity below the slots then taken |
| Openings.OpenWithinIff | src/coordinator.cpp:505-540 | on every run, whatever is cancelled, the reserved and dispatched plans of a target never exceed its capacity if and only if every admitted reservation finds fewer of them than the capacity and no accepted registration sets a capacity below them |
| Openings.OpenPlansWithinCapacity | src/coordinator.cpp:517-519 | so it is on runs whose cancels keep the counters exact and whose registrations leave room for the slots taken |
| Witness.CapacityCanBeExceeded | src/coordinator.cpp:743-746 | a concrete legal run, in which every registration leaves room for the slots taken, with a cancel of a plan that never reserved, ends with two reserved plans on a target with one slot |
| Workspace.BookingAdds | src/coordinator.cpp:529-535 | an admitted reservation adds to the counter of its target only, modulo 2^64, and what it leaves is within the budget |
| Workspace.BookingKeepsWorkspace | src/coordinator.cpp:529-535 | an admitted reservation keeps the counters exact if and only if the sum does not wrap |
| Workspace.ReleaseFits | src/coordinator.cpp:715-720 | with exact counters the guarded subtraction always fires for a holder |
| Workspace.CancelKeepsWorkspace | src/coordinator.cpp:743-747 | a cancel keeps the workspace exact if and only if the plan holds, reserved none, or claims more than is left |
| Workspace.WorkspaceExactIff | src/coordinator.cpp:505-751 | on every run the workspace counters are exactly what the holders reserved after every step if and only if no admitted reservation wraps and every cancel hits a holder, a plan that reserved none, or one that claims more than is left |
| Workspace.WorkspaceIsOwed | src/coordinator.cpp:517-747 | on every run with budgets below 2^63, raised or lowered at will, the counters stay below 2^63 and are exactly what the holders reserved after every step if and only if every cancel is such |
| Workspace.WithinBudgetIff | src/coordinator.cpp:517-535 | on every run no workspace counter ever exceeds its budget if and only if no accepted registration sets a budget below what is then reserved |
| Witness.WorkspaceCanBeGivenAway | src/coordinator.cpp:743-747 | a concrete legal run with small budgets: a plan that was out when the coordinator restarted is cancelled afterwards, and the counter falls to zero while another plan still holds four |
| IndexScan.CancelKeepsIndex | src/coordinator.cpp:734-751 | a cancel keeps the index sound if and only if the plan was live or no live plan shares its operation |
| IndexScan.RunIndex | src/coordinator.cpp:279-289 | on every run an operation has at most one live plan, and its key is in the index, after every step if and only if every cancel hits a live plan or an operation without one |
| IndexScan.IndexRefusesDuplicates | src/coordinator.cpp:365-367 | on such runs planning is refused as a duplicate, with nothing changed, whenever a scan for a live plan of the operation would find one |
| Witness.OneOperationTwoLivePlans | src/coordinator.cpp:734-751 | a concrete legal run with a cancel of a plan whose outcome is unknown ends with two live plans of one operation |
| NodeSafety.NodeStep | apps/nmc_coordinator.cpp:117-276 | every step of every handler keeps the tables, the binding of dispatches to clients and the backing of replies |
| NodeSafety.PromiseSetOnce | apps/nmc_coordinator.cpp:30-58 | in every interleaving no client's promise is given a value twice |
| NodeSafety.ResultNeverEarly | apps/nmc_coordinator.cpp:216-224 | in every interleaving the dispatch of every frame that may have reached a worker is already in the table or answered |
| NodeSafety.SettledReplyIsTrue | apps/nmc_coordinator.cpp:154-175 | in every interleaving a promise settled with a committed reply belongs to the client that asked for that plan, and the coordinator holds the plan as committed with the same digest on record |
| NodeSafety.CommittedReplyIsTrue | apps/nmc_coordinator.cpp:154-247 | in every interleaving every client that was told committed was told so of the plan it asked for, and the coordinator holds that plan as committed with the digest it was told on record |
| NodeSafety.AnswerIsBacked | apps/nmc_coordinator.cpp:154-172 | the reply built from a completion says committed only when the completion committed the plan that carries the dispatch; that it then does say so is `Told.CommitIsNews` |
| Waiting.AttendedIff | apps/nmc_coordinator.cpp:207-224 | in every interleaving every waiting client's worker is connected, or its disconnection still to be dealt with, after every step, if and only if every client that enters the table finds its worker so |
| Waiting.DepartureAnswers | apps/nmc_coordinator.cpp:41-58 | a waiting client whose worker is leaving is answered, as ambiguous, when the departure is dealt with |
| Waiting.StrandedLasts | apps/nmc_coordinator.cpp:232-232 | in every interleaving a client whose worker is neither waits until a result for its dispatch arrives or the same incarnation connects or leaves again |
| Stranding.AClientIsStranded | apps/nmc_coordinator.cpp:207-232 | a concrete run in which a worker's connection is cleared away between a client's lookup and its entry ends with that client waiting so |
| WaitTable.Table.ResolveDispatch | apps/nmc_coordinator.cpp:30-40 | resolving a dispatch takes the step of the process model |
| WaitTable.Table.ResolveDisconnect | apps/nmc_coordinator.cpp:41-58 | the loop takes out exactly the entries of the incarnation and sets each of their promises once |
| Wire.PutHello | include/nmc/protocol.hpp:216-224 | a hello message comes back from its encoding with any suffix untouched if and only if its name is within the blob limit |
| Wire.PutRegistration | include/nmc/protocol.hpp:225-257 | a target registration comes back with any suffix untouched if and only if its three lists are within 64 and its name within the limit |
| Wire.PutCapability | include/nmc/protocol.hpp:258-274 | a capability message comes back with any suffix untouched if and only if it has at most 1024 entries with keys within the limit |
| Wire.PutEvidence | include/nmc/protocol.hpp:275-294 | data evidence always comes back with any suffix untouched |
| Wire.PutHeartbeat | include/nmc/protocol.hpp:295-306 | a heartbeat always comes back with any suffix untouched, the confidence as its bit pattern |
| Wire.PutDispatch | include/nmc/protocol.hpp:307-341 | a dispatch, its optional program generation included, comes back with any suffix untouched if and only if its payload is within the limit |
| Wire.PutResult | include/nmc/protocol.hpp:350-377 | a result comes back with any suffix untouched if and only if its output, digest and note are within the limit |
| Wire.PutOperationFields | include/nmc/protocol.hpp:411-460 | an operation comes back with any suffix untouched if and only if it names a program and its generation together or not at all, and its description is within the limit |
| Wire.PutReply | include/nmc/protocol.hpp:473-493 | a client reply comes back with any suffix untouched if and only if its strings are within the limit |
| Wire.GetRegistration | include/nmc/protocol.hpp:238-257 | only registrations within the caps are ever decoded |
| Wire.GetCapability | include/nmc/protocol.hpp:265-274 | only capability messages within the caps are ever decoded |
| Lists.ReadCodeList | include/nmc/protocol.hpp:247-252 | the bounded loop reads what the list decoder specifies and stops where it does |
| Lists.ReadEntries | include/nmc/protocol.hpp:269-270 | the bounded loop reads what the list decoder specifies and stops where it does |
| Lists.WriteCodeList | include/nmc/protocol.hpp:229-234 | the loop writes the count and every code |
| Frames.PutHeader | include/nmc/protocol.hpp:82-104 | a header with a known frame type comes back from its 24 bytes |
| Frames.SentIsReceived | src/net.cpp:177-236 | the bytes of a frame within the limits, followed by anything, are received as that frame, leaving what followed |
| Frames.ReceivedWasSent | src/net.cpp:203-236 | whatever is received is the bytes of a frame within the limits |
| Frames.CorruptionIsCaught | src/net.cpp:226-235 | a frame with one altered byte anywhere outside the length field is not received |
| Frames.AlteredLength | src/net.cpp:203-236 | for every altered length field: the outcome is oversized, truncated, malformed or a frame of that length, exactly by the limit, what has arrived and the checksum over the altered header |
| Frames.LengthenedIsRefused | src/net.cpp:203-236 | a frame whose length field was raised is never received from a stream that ends with it |
| Frames.CutShort | src/net.cpp:203-236 | a proper first part of a frame is reported as a disconnection or as truncated, never received |
| Frames.StreamRoundTrip | src/net.cpp:177-236 | a concatenation of frames followed by anything is received as the same sequence of frames |
| Frames.Connection.SendAll | src/net.cpp:67-83 | the loop sends all bytes in order, or fails after a first part of them |
| Frames.Connection.RecvAll | src/net.cpp:85-103 | however the stream is cut into pieces, the loop returns exactly the next n bytes, or reports the end |
| Frames.FrameCrc | src/net.cpp:188-195 | the checksum fed field by field is the checksum of the covered header fields and the payload |
| Frames.SendFrame | src/net.cpp:177-201 | the frame goes out in full, or is refused before anything goes out because of its payload, or fails after a proper first part of it |
| Frames.RecvFrame | src/net.cpp:203-236 | the receiver's sequence of checks gives the outcome of `Receive` for every cutting of the stream |
| Frames.SendFrames | src/net.cpp:177-201 | frames sent one after another put their concatenation on the wire, up to the first that fails, followed by a part that is not received |
| Frames.RecvFrames | apps/nmc_coordinator.cpp:120-124 | the receiving loop returns exactly the frames before the first outcome that is not a frame, for every cutting of the stream |
| Frames.ReceiveAllOf | src/net.cpp:203-236 | a concatenation of frames followed by anything that is not a frame is received as exactly those frames |
| Frames.Exchange | src/net.cpp:177-236 | over one connection, whatever the pieces and whenever sending fails, the receiver gets exactly the frames that were sent in full, in order |
| Checksum.KnownCrc | include/nmc/checksum.hpp:14-19 | the register after "123456789" is the complement of the published check value 0xCBF43926 |
| Digest.KnownDigests | include/nmc/digest.hpp:19-26 | the hash of the empty text and of "a" are the published 64-bit FNV-1a values |
| Digest.MixingCancels | include/nmc/digest.hpp:22-23 | one step is injective in the state for a fixed byte and in the byte for a fixed state, because the multiplier is invertible modulo 2 to the 64 |
| Digest.HexReadsBack | include/nmc/digest.hpp:28-32 | the printed digits have the full width and read back, as lower-case hexadecimal, as the number |
| Digest.OneByteChangesDigest | include/nmc/digest.hpp:19-32 | two outputs of equal length that differ in one byte never share a digest text |
| Fates.FenceFate | src/coordinator.cpp:771-782 | after a fence a plan of that incarnation is of unknown outcome if and only if it was in flight, and fenced if and only if it was planned, reserved, already unknown or already fenced; all other plans are untouched |
| Fates.RetireFate | src/coordinator.cpp:822-838 | after a retirement a plan on the target is fenced if and only if it was open or already fenced; all other plans are untouched |
| Fates.EpochFate | src/coordinator.cpp:111-120 | after an epoch change a plan is of unknown outcome if and only if it was in flight, committed if and only if it was, and superseded otherwise |
| Fates.SweepFate | src/coordinator.cpp:753-838 | in every run, exactly what a fence, a disconnection, a retirement and an epoch change make of every plan on record |
| Fates.LoadFate | src/coordinator.cpp:1085-1114 | in every run, a start of the process makes of every saved plan what an epoch change would |
| Fates.FenceEvidence | src/coordinator.cpp:755-769 | a fence withdraws exactly the runtimes, capabilities and evidence of that incarnation, keeps what was measured, and leaves those of every other incarnation as they were |
| Fates.EpochEvidence | src/coordinator.cpp:93-110 | an epoch change withdraws every runtime, capability set and piece of evidence, and adds one to the epoch modulo 2 to the 64 |
| Fates.SessionsFollow | src/coordinator.cpp:173-182 | a greeting binds the worker to its incarnation and touches no other session; a disconnection unmarks exactly the sessions of the incarnation |
| Fates.FenceBlocks | src/coordinator.cpp:776-783 | in every run a fence or disconnection leaves the operation of every plan it caught in flight blocked: outcome unknown, key in the index |
| Fates.BlockedLasts | src/coordinator.cpp:279-289 | in every run a blocked operation stays blocked until a plan of it is answered or cancelled, or the plan is fenced again, retired, or closed by an epoch change or a start |
| Fates.UnknownIsNotReplanned | src/coordinator.cpp:365-367 | in every run, planning an operation whose plan a fence or disconnection caught in flight creates nothing and changes nothing until then |
| IndexKeys.KeyStep | src/coordinator.cpp:685-712 | between rebuilds a key is in the index after a step if and only if the step made a plan for it, or it was there and no plan of the operation was answered or cancelled |
| IndexKeys.KeysAreExplained | src/coordinator.cpp:279-289 | in every run, a key is in the index only if a plan of the operation is live, or a rebuild since which none was answered or cancelled found one of unknown outcome, or one was superseded as stale since the last rebuild |
| IndexKeys.SettledIsPlannable | src/coordinator.cpp:365-367 | in every run, once a plan of an operation was answered or cancelled, planning it is not refused as a duplicate until a plan is made for it or the index rebuilt |
| WorkOrder.MadeSince | src/coordinator.cpp:458-497 | in every run a live plan was made, in this epoch of this process, by planning its operation as it still is on record |
| WorkOrder.DispatchDescribesWork | src/coordinator.cpp:576-602 | in every run the message of a successful dispatch carries the payload, class, data type, retry class and safety demands of the operation the plan was made for; a program generation is there exactly if a program is named, and is the pinned one or 1 |
| WorkOrder.NewPlanIsFreshIff | src/coordinator.cpp:296-345 | in every run a plan is fresh the moment it is made if and only if what its operation names agrees with what is registered and its evidence is in force |
| WorkOrder.PreparesIff | src/coordinator.cpp:542-603 | in every run a dispatch is prepared if and only if the plan is reserved, everything pinned is current, registrations agree and a session is of the pinned incarnation; it goes to the least such worker |
| Provenance.EntryAt | src/coordinator.cpp:227-236 | the state kept for a capability key is that of the last entry of the message with that key, and there is none if no entry has it |
| Provenance.LastRegistration | src/coordinator.cpp:184-213 | in every run a target on record is as its last accepted registration says, with no start since |
| Provenance.LastPublication | src/coordinator.cpp:215-240 | in every run current capabilities are those of the last accepted message, given in this epoch and not withdrawn since |
| Provenance.LastHeartbeat | src/coordinator.cpp:260-277 | in every run a current runtime is as its last accepted heartbeat says, up to a drain, and nothing has withdrawn it since |
| Provenance.LastEvidence | src/coordinator.cpp:242-258 | in every run the evidence for a region is as the last accepted message says, up to its withdrawal |
| Provenance.AlwaysUnset | src/coordinator.cpp:198-212 | in every run no target has a set-up time or slots in use: nothing ever writes them |
| Judgement.BeatStands | src/coordinator.cpp:260-277 | a target stays current after its last accepted heartbeat, and its state is what the heartbeat said, or draining exactly if a drain was accepted since |
| Judgement.ListedIsSupported | include/nmc/capability.hpp:38-42 | a class counts as supported if and only if the message has an entry with its key whose last such entry is neither unknown nor to be revalidated; a missing one fails closed |
| Judgement.EligibleByMessages | include/nmc/planning.hpp:44-113 | in every run a target is eligible if and only if its last accepted registration, heartbeat and capability message and the last evidence for the region say so, and the program is ready |
| Judgement.EligibleHasMessages | src/coordinator.cpp:369-394 | in every run an eligible target has had all four messages accepted and not withdrawn |
| Judgement.UnlistedIsIneligible | include/nmc/planning.hpp:68-72 | in every run a class that the last accepted capability message does not list, or leaves unknown or to be revalidated, makes the target ineligible |
| Judgement.CostByHeartbeat | src/coordinator.cpp:403-434 | in every run the cost and confidence a target is ranked by are twice the latency plus the result transfer, and the confidence, of its last accepted heartbeat |
| Judgement.PlannedByMessages | src/coordinator.cpp:352-503 | in every run a plan is made only for a target whose last accepted messages make it eligible, at the cost its last heartbeat gives |
| Judgement.PlanPinsMessages | src/coordinator.cpp:478-494 | in every run a new plan pins the generations and incarnation of the last accepted registration, capability message and evidence, and those its operation names |
| Withdrawal.AdmittedIff | src/coordinator.cpp:505-539 | in every run a reservation is admitted if and only if the plan is planned, the target is neither draining, degraded nor to be revalidated, and a slot and the workspace are free |
| Withdrawal.ShutUntilHeard | src/coordinator.cpp:520-523 | in every run, after a drain, retirement, fence of the owner, epoch change or start, no reservation on the target is admitted until a heartbeat or registration for it |
| Withdrawal.TerminalLasts | src/coordinator.cpp:264-267 | a retired or failed target takes no heartbeat and no drain, and in every run stays so through a step if and only if the step neither registers it, nor fences or drops its owner, nor moves the epoch, nor starts the process |
| Withdrawal.RetiredIsHeardAgain | src/coordinator.cpp:755-761 | a three-step run after which a retired target takes heartbeats again, because a fence of its owner overwrites its state |
| Registry.AlwaysKeyed | src/coordinator.cpp:124-213 | in every run every definition is under its own non-null identity with a generation, the default policy is in place, and measurements and capabilities are about registered targets |
| Registry.DefinitionsStay | src/coordinator.cpp:124-171 | while the process runs no domain, dataset, region, program, policy or operation is replaced or dropped |
| Told.CommitIsNews | apps/nmc_coordinator.cpp:154-168 | a completion that turns its plan into a committed one is answered with committed, verified, not ambiguous, and the digest and size of that output; no other completion is answered with committed |
| Told.OtherNews | apps/nmc_coordinator.cpp:154-168 | every other completion is answered as refused, unknown or mismatched exactly if it was |
| Told.StoredAsSent | src/coordinator.cpp:668-713 | an accepted completion stores one result, under its own identity, with the generation, note, size and digest that were sent |
| Told.SettledOnceFor | apps/nmc_coordinator.cpp:30-58 | in every interleaving the step that takes a promise out of the table settles it, for its own client and for good: with the answer delivered, or as ambiguous after a failed send or a departure |
| Told.CommitReachesClient | apps/nmc_coordinator.cpp:154-172 | in every interleaving, if the dispatch is still pending when the answer of a committing completion is delivered, the promise of its client is settled for good with exactly that news |
| Told.HearsOfCommitIff | apps/nmc_coordinator.cpp:154-232 | in every interleaving a client is told committed if and only if its promise was settled by the answer of a completion for its dispatch that committed; departure, failed send or the answer of another completion tell it something else |
| Told.ClientHearsItsPromise | apps/nmc_coordinator.cpp:224-232 | in every interleaving a client that is done and whose promise was settled was handed exactly that reply |
| SentFrames.SentWasConfirmed | apps/nmc_coordinator.cpp:220-226 | in every interleaving the plan of every frame that may have reached a worker has that very dispatch and is dispatched or beyond |
| SentFrames.SentToJoined | apps/nmc_coordinator.cpp:211-226 | in every interleaving frames are only sent to incarnations that have joined |
| SentFrames.DepartedStaysAway | apps/nmc_coordinator.cpp:41-52 | in every interleaving, once the departure of an incarnation is dealt with, no client finds it connected until it joins again |
| SentFrames.GivingUpCloses | apps/nmc_coordinator.cpp:217-236 | a client that gives up leaves its plan closed, and a departure leaves no live plan of the incarnation |

## Left out

- Sockets, listening, accepting and file calls: a connection is a byte sequence delivered in pieces of any size, a file a byte sequence, and an atomic replace either happens or leaves the old file.
- Mutexes and thread scheduling: one coordinator operation or one table access is one step; only their order is free.
- Random identities: new identities are parameters, required to be new among those of their kind (`Runs.Legal`, `Node.Ready`).
- Loading into a coordinator that is already in use: with a file that loads it is the start of a process in the model; one that fails changes nothing and is not a step.
- Floating point arithmetic: doubles are only compared, through their bit patterns; the transfer time computed in extended precision is an integer quotient.
- FNV-1a collisions beyond one byte: outputs of different length, or that differ in more than one byte, may share a digest.
- Sample payload generation: the dispatch payload is a parameter.
- Explanations, notes and error texts: only error codes, reasons and decisions are kept.
- Fields that are never read or never change: capability entry ids, evidence ids, measured flags, workspace in use, the dynamic record of integrity.
- Planning records the target rejections in a text list for the caller; the model keeps the decision, the ranking and the plan.
- `encode_state` and `decode_state` are modelled on byte sequences rather than through the cursor objects; the cursor objects are proved against the same integer and blob functions and used for the envelope and the bounded lists.
- Straight-line message encoders and decoders are functions on byte sequences; only their list loops are methods.
- Registration of domains, datasets, regions and programs, data evidence, worker binding and draining are `Engine` functions without a method in the class: they are one guarded map update each.
- Acknowledgement, error, shutdown and revalidation messages and the single-field client requests: they would only repeat the smaller round trips.
- The unused comparison of a plan with a current snapshot (include/nmc/authority.hpp:86-117), the command line, discovery, backends and benchmarks.
- Progress of the process: nothing is claimed about a client whose worker stays connected and never answers.
- Delivery.HonestEchoCommits: asks for a confirmation that is accepted, and counts an accepted completion for the plan as a disturbance, because it uses up the dispatch.
- Restart.FileHoldsDisk: stated for runs whose successful saves were of persistable states, because no other state reads back as it was (`Store.LoadAfterSave`, `Lost.SavedProgramIsLost`); the theorems about files carry the same condition.
- Safety.StepInv: a restart is from what the last save kept; that the file holds it is `Restart.FileHoldsDisk`, for persistable states.
- Safety.RunInv: the same; by `Restart.FileHoldsDisk` it holds of every run over file bytes whose successful saves were of persistable states, and so does every other theorem about `Runs.After`.
- Safety.OneResultPerPlan: the same; `Restart.OneResultAcrossFiles` states it over file bytes with the condition.
- Safety.RevocationIsFinal: the same; `Restart.RevocationAcrossFiles` states it over file bytes with the condition.
- Safety.RankNeverFalls: the same; `Restart.RankAcrossFiles` states it over file bytes with the condition.
- Openings.OpenPlansWithinCapacity: one way only, from conditions on the counters; the equivalence over all runs is `Openings.OpenWithinIff`.
- Planning.RankedOrdered: about the insertion sort of the model; on candidates for which the comparator is no strict weak order the source's sort has no defined result.
- IndexScan.RunIndex: says that the key of a live plan is in the index; what every key in the index stands for is `IndexKeys.KeysAreExplained`.
