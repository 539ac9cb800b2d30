# Verified models of the Universal Communication Runtime

This project models, in Dafny, the parts of the Universal Communication Runtime whose correctness rests on
protocol state, on loops with several ways to fail, or on two programs that must agree, and proves what they
promise over every input and every run.

| component | files | form |
|---|---|---|
| Canonical Call signalling, its runs, and how Calls are stored and checked | `CallSignalling`, `CallSafety`, `CallEffects`, `CallVerdicts`, `CallRuns`, `CallFingerprint`, `CallDiagnosis`, `CallStorage`, `CallReload` | values for the protocol crate, loops for the checker |
| The strict two-Device Call server and its refinement of the canonical machine | `DirectCallServer`, `DirectCallAnswers`, `DirectCallRefinement` | a class proved against a step function |
| The account server: challenges, recovery codes, revocation | `AccountServer`, `AccountSafety`, `AccountAnswers`, `AccountExamples` | a class proved against a step function |
| The node-to-node media stream: client, channel and node | `SfuForwarding` | loops over a stream object |
| Attachment layout, upload and complete verification | `Attachments`, `AttachmentStore` | a lazy iterator object, a store class |
| Machine-token keys and the Authorization header | `MachineKeys`, `Bearer` | a provider class, loops over key sets and header words |
| The recovery wire codec | `RecoveryCodec` | functions |
| The release tools: SBOM, manifest, readiness and signing receipt | `Sbom`, `Manifest`, `Readiness`, `Characters` | loops proved against declarative specifications |
| Shared | `Base`, `Ordering`, `Utf8` | result types; stable sorting and the uniqueness of a sorted form; text as UTF-8 bytes |

A method is the program's own control flow. It is proved equal to a specification function or to a declarative
condition, and the lemmas are about that specification. Text that a program only ever compares with fixed words is
modelled as a datatype of those words plus "anything else".

Assumptions appear as parameters or as `requires` clauses and nowhere else: a digest is an arbitrary function, and
a lemma that needs it asks only that the inputs it compares do not collide; random recovery codes never repeat
(`AccountSafety.FreshDraws`); the native signature verifiers, base64url, key derivation and Python's conversions
between text and numbers are parameters.

## What turned out not to hold

Each of these is stated as a lemma with the failing family, next to the exact condition under which the program
does keep the promise.

- The client of the media stream reports how many targets were accepted before a failure, but the node keeps
  forwarding after a full or refusing sink, so the report can fall short
  (`SfuForwarding.ReportCanFallShort`, `SfuForwarding.ReportIsTotalExactlyWhen`).
- SPDX ids are not unique per package: `a-b` at version `c` and `a` at version `b-c` share one
  (`Sbom.SplitNamesShareAnId`, `Sbom.IdsAgreeExactlyWhen`). The SBOM is independent of input order exactly when
  packages it cannot tell apart declare the same licence (`Sbom.DeterministicExactlyWhenLicencesAgree`).
- The secret provider accepts a version id from before the previous one again, and tokens of that version then
  verify again (`MachineKeys.ReusedVersionRevives`, `MachineKeys.TokenVerifiesExactlyWhen`).
- A login challenge is consumed whatever binding it was issued for; only its kind is compared
  (`AccountExamples.LoginChallengeIsNotBound`, `AccountSafety.ConsumedByItsOwnKind`).
- Revoking a Device does not end its other sessions: one that survives can still list, rotate the recovery code,
  revoke and log out (`AccountExamples.RevokedDeviceRotates`, `AccountSafety.RevokedSessionAnswers`).
- The structural checker of stored Calls accepts some sessions that the runtime refuses; the difference is spelled
  out exactly (`CallStorage.CheckerMissesMedia`, `CallStorage.CheckerGap`).

## Model

| member | source | states |
|---|---|---|
| CallSafety.CanonicalMeansCoherent | crates/ucr-protocol/src/call.rs:45-145 | the validation accepts a session exactly when it meets a declarative invariant (distinct valid participants, accepted initiator, phase fitting the remote standings), and returns the same session with its participants in canonical order |
| CallSafety.CanonicalIsIdempotent | crates/ucr-protocol/src/call.rs:45-145 | a session already in canonical form is returned unchanged |
| CallSafety.TransitionAllowed | crates/ucr-protocol/src/call.rs:472-670 | for each of the twelve signals, the transition is granted exactly when an authority table over standings and phase allows it |
| CallSafety.TransitionKeeps | crates/ucr-protocol/src/call.rs:472-670 | every granted transition yields a session that meets the invariant |
| CallSafety.SettleIsCoherent | crates/ucr-protocol/src/call.rs:751-800 | after a participant stopped being viable, the derived phase fits the remaining participants |
| CallSafety.SignalAppliesExactlyWhenAllowed | crates/ucr-protocol/src/call.rs:254-319 | a signal is applied exactly when scope, Call, revision, actor, counters and authority fit; the closing re-validation never refuses; revision and generation grow by one |
| CallSafety.ReconcileNeverStrands | crates/ucr-protocol/src/call.rs:329-402 | reconciling a group Call with its members fails only on exhausted counters, and afterwards the Call has ended or only members are active in it |
| CallEffects.TransitionEffect | crates/ucr-protocol/src/call.rs:472-670 | what each signal changes: exactly one entry with exactly one new standing, when the Call ends and why, the reconnecting owner and the media generation, with every other entry unchanged |
| CallEffects.SignalEffect | crates/ucr-protocol/src/call.rs:254-319 | an applied signal has exactly that effect, at the next revision and generation |
| CallEffects.ReconcileEffect | crates/ucr-protocol/src/call.rs:329-402 | nothing changes if nobody was revoked; a lost initiator ends the Call; otherwise exactly the revoked active entries are marked as left at the new revision |
| CallVerdicts.CanonicalVerdict | crates/ucr-protocol/src/call.rs:45-145 | a session is accepted exactly when conversation kind, number of entries, distinctness, dates, initiator and story are in order, each spelled out; otherwise the first that is not is named; what comes back is the same session with its entries in strict order |
| CallVerdicts.CreationVerdict | crates/ucr-protocol/src/call.rs:152-188 | why a creation is refused, in the order of the checks |
| CallVerdicts.SignalVerdict | crates/ucr-protocol/src/call.rs:254-319 | every refused signal is answered with the first guard it fails, for all twelve kinds |
| CallVerdicts.BrokenSessionIsRefused | crates/ucr-protocol/src/call.rs:254-345 | a session that is not well formed is refused for its own fault by signals and by reconciliation |
| CallVerdicts.ReconcileVerdict | crates/ucr-protocol/src/call.rs:329-402 | reconciliation is refused for direct Calls, leaves ended and undisturbed Calls alone, and otherwise fails only on exhausted counters |
| CallVerdicts.FingerprintStates | crates/ucr-protocol/src/call.rs:197-234 | the creation fact names the session's own scope, Call, conversation and initiator and exactly the principals there from the start, in order; exactly when it exists |
| CallVerdicts.KindCodeIs | crates/ucr-protocol/src/call.rs:838-849 | a principal kind is coded by its place in the declaration |
| CallRuns.CreationAcceptsExactly | crates/ucr-protocol/src/call.rs:152-188 | a creation is accepted exactly when it is the initiator's own, untouched, and names the initiator and at least one other distinct, merely invited principal |
| CallRuns.CreationIsHealthy | crates/ucr-protocol/src/call.rs:152-188 | an accepted creation meets the invariant at revision 0, inviting, with every participant joined at revision 0 |
| CallRuns.RunContinues | crates/ucr-protocol/src/call.rs:254-402 | over any run of signals and membership changes: the invariant holds, identity and origin never change, the revision never falls, termination is absorbing, entries are never lost or re-dated, tombstones never change |
| CallRuns.TombstoneNeverActs | crates/ucr-protocol/src/call.rs:238-247 | a participant that rejected, was busy or left stays recorded and never again gets a signal applied, in any continuation |
| CallRuns.NeverStuck | crates/ucr-protocol/src/call.rs:647-670 | from every healthy live state with counters to spare the initiator can end the Call |
| CallRuns.OneSignalPerRevision | crates/ucr-protocol/src/call.rs:254-319 | of all signals in a run naming the same expected revision at most one is applied, and later ones name later revisions |
| CallRuns.CreationFingerprintIsImmutable | crates/ucr-protocol/src/call.rs:197-234 | the facts the creation fingerprint hashes exist at creation and are the same after any run |
| CallFingerprint.CreationBytesDetermineFact | crates/ucr-protocol/src/call.rs:197-234 | the length-prefixed UTF-8 encoding of a creation is injective: different facts have different bytes |
| CallFingerprint.SignalBytesDetermineFact | crates/ucr-protocol/src/call.rs:408-449 | the same for signals with every kind of payload |
| Utf8.TextReadable | crates/ucr-protocol/src/call.rs:802-822 | the UTF-8 bytes of a text determine the text |
| Utf8.WellFormedIsText | crates/ucr-model/src/lib.rs:157-165 | exactly the encodings of texts are well-formed UTF-8 |
| CallFingerprint.CodesCount | crates/ucr-protocol/src/call.rs:408-449 | conversation kinds and reasons are coded by their place in the declaration, signals by their first byte |
| CallFingerprint.DomainsAreApart | crates/ucr-protocol/src/call.rs:229-233 | the hashed input of a creation is never that of a signal |
| CallFingerprint.RetryIsRecognised | crates/ucr-protocol/src/call.rs:190-234 | after any run of a Call, a start request has its fingerprint exactly when it states the same creation fact, unless the digest collides on the two |
| CallDiagnosis.CheckParticipants | tools/diagnose_local_call_state.py:55-59 | the participant loop crashes exactly on an undecodable revision and otherwise collects one issue per violation |
| CallDiagnosis.CheckRow | tools/diagnose_local_call_state.py:41-74 | the issues of one row are exactly those of the declarative list |
| CallDiagnosis.Diagnose | tools/diagnose_local_call_state.py:34-79 | over every table contents: missing schema, crash and report are told apart exactly; the report counts, under each name, the violations of all rows and participants; the exit code |
| CallDiagnosis.ReportCounts | tools/diagnose_local_call_state.py:41-74 | each count is the number of violations of what its name stands for, once per row or once per participant, spelled out without the checker's predicates |
| CallDiagnosis.CleanExactlyWhenNoIssues | tools/diagnose_local_call_state.py:41-74 | a row has no issue exactly when it decodes and meets all listed Call invariants |
| CallDiagnosis.ExitZeroMeansAllClean | tools/diagnose_local_call_state.py:75-79 | exit code 0 is exactly that every row is clean |
| CallDiagnosis.PhaseClassIsDetermined | tools/diagnose_local_call_state.py:60-70 | for an issue-free live Call the phase class is determined by the remote participants' states |
| CallStorage.CheckerInspects | crates/ucr-storage-sqlite/src/call_store.rs:1062-1175 | a stored session passes the checker exactly when the inspected part of the session is in order |
| CallStorage.CheckerGap | tools/diagnose_local_call_state.py:34-79 | the exact difference between the checker and the canonical validation |
| CallStorage.CheckerMissesMedia | tools/diagnose_local_call_state.py:34-79 | every new Call given a media generation without a negotiation passes the checker and is refused by the runtime |
| CallStorage.RevisionDecodes | crates/ucr-storage-sqlite/src/call_store.rs:1370-1372 | a stored counter reads back as itself |
| CallStorage.FirstByteWeighsMost | crates/ucr-storage-sqlite/src/call_store.rs:1370-1378 | counters are stored with the most significant byte first |
| CallStorage.SelectOwn | tools/diagnose_local_call_state.py:36-40 | with distinct keys, selecting a Call's participants from the whole table gives back its own entries |
| CallStorage.DiagnoseReachable | tools/diagnose_local_call_state.py:34-79 | over a store of any number of Calls, each reached by some run from an accepted creation, the checker neither crashes nor reports an issue |
| CallReload.LoadParticipants | crates/ucr-storage-sqlite/src/call_store.rs:1013-1059 | the loop reads every row or stops at the first that does not read |
| CallReload.EntryReads | crates/ucr-storage-sqlite/src/call_store.rs:1045-1056 | a participant row reads as a participant exactly when it is what is written for that participant |
| CallReload.SessionReads | crates/ucr-storage-sqlite/src/call_store.rs:911-973 | a record with its rows spells a session exactly when it is the record of that session |
| CallReload.RefusedBecause | crates/ucr-storage-sqlite/src/call_store.rs:974-985 | a session that was read is refused as too large, as not well formed, or because its creation fact does not have the recorded fingerprint |
| CallReload.LoadsExactlyWhatIsHeld | crates/ucr-storage-sqlite/src/call_store.rs:911-985 | a lookup yields a session exactly when the store holds that very session under the asked key, with the fingerprint of its own creation fact, and it is well formed |
| CallReload.ReloadsEveryCall | crates/ucr-storage-sqlite/src/call_store.rs:911-1171 | over a store of any number of Calls, each created and then run in any way, with rows in any order, every Call loads as exactly the session it has become |
| DirectCallServer.DirectCallService.constructor | sdk/typescript/first_party_two_device_http_conformance.ts:65-73 | the server starts empty |
| DirectCallServer.DirectCallService.Handle | sdk/typescript/first_party_two_device_http_conformance.ts:65-150 | one request changes the maps and counters and answers exactly as the route tables below say |
| DirectCallServer.RunSound | sdk/typescript/first_party_two_device_http_conformance.ts:102-147 | in every reachable state each Call is well formed and belongs to its start key, and every later state extends every earlier one |
| DirectCallServer.HistoryIsLegal | sdk/typescript/first_party_two_device_http_conformance.ts:123-147 | under every interleaving a Call's history is a prefix of ringing, active, terminated or of ringing, terminated |
| DirectCallServer.AnsweredExactlyWhen | sdk/typescript/first_party_two_device_http_conformance.ts:123-147 | every signal and Join over the request and the maps alone: revoked, unknown, late or forbidden in that order with nothing changed; accept, reject and busy are for the callee of a ringing Call, cancel for its caller, hangup for either party of an active one; the resulting Call and nothing else changes |
| DirectCallAnswers.StartAnswers | sdk/typescript/first_party_two_device_http_conformance.ts:102-116 | only the caller starts Calls, to the other Device, by audio or video; a known key returns its Call unchanged, a new one creates a ringing Call at revision 1 under an id made of medium and key |
| DirectCallAnswers.RoutineAnswers | sdk/typescript/first_party_two_device_http_conformance.ts:75-122 | session, inspection, reprovisioning, Call-free Join and the incoming list |
| DirectCallAnswers.CallAnswers | sdk/typescript/first_party_two_device_http_conformance.ts:123-148 | reading a Call, and unknown routes |
| DirectCallServer.EachSuccessAddsOne | sdk/typescript/first_party_two_device_http_conformance.ts:136-147 | every successful signal named the current revision and adds one to it; an accept, by the callee only, makes the Call active, any other ends it |
| DirectCallServer.SignalsAreCompareAndSwap | sdk/typescript/first_party_two_device_http_conformance.ts:136-147 | of all signals to one Call naming the same expected revision at most one succeeds; later successes name later revisions |
| DirectCallServer.StartIsIdempotent | sdk/typescript/first_party_two_device_http_conformance.ts:102-116 | two starts at any times return the same Call exactly when their keys are equal |
| DirectCallServer.KnownStartHasCall | sdk/typescript/first_party_two_device_http_conformance.ts:107-109 | a known start key always leads to a Call |
| DirectCallServer.JoinOnlyWhileActive | sdk/typescript/first_party_two_device_http_conformance.ts:128-135 | every Join names a Call active at the requested revision and never terminated before |
| DirectCallServer.RevokedDeviceIsRefused | sdk/typescript/first_party_two_device_http_conformance.ts:74-74 | after revocation every request of the revoked Device is refused and changes nothing, in every continuation |
| DirectCallRefinement.SignalIsMirrored | sdk/typescript/first_party_two_device_http_conformance.ts:136-147 | every signal the server accepts is applied by the canonical machine, with the same new state and revision |
| DirectCallRefinement.ServerRefinesCanonicalCall | sdk/typescript/first_party_two_device_http_conformance.ts:102-147 | simulation over whole runs: every Call the server holds is, in state and revision, where one canonical run from an accepted creation leads, with one applied signal per revision |
| DirectCallRefinement.MirrorOnlyGrows | sdk/typescript/first_party_two_device_http_conformance.ts:102-147 | it is one run: beside a longer run of the server the canonical run continues the one beside a shorter |
| DirectCallRefinement.ServerIsStricter | crates/ucr-protocol/src/call.rs:647-670 | the inclusion is strict: ending a ringing Call is canonical and refused by the server |
| AccountServer.AccountService.constructor | sdk/typescript/first_party_account_conformance.ts:38-42 | the server starts empty |
| AccountServer.AccountService.Serve | sdk/typescript/first_party_account_conformance.ts:43-164 | one step of one request, with the signature checks as suspension points, changes the state and answers exactly as the route tables below say |
| AccountAnswers.BeginAnswers | sdk/typescript/first_party_account_conformance.ts:58-73 | every begin answers with the next id, the drawn nonce and the binding to prove and stores exactly that; a signup is for a newly numbered participant and Device |
| AccountAnswers.FinishAnswers | sdk/typescript/first_party_account_conformance.ts:74-93 | a finish is refused unless it names an open challenge of its kind and binding; otherwise the challenge is gone and the check asks for the request's key over binding, key, challenge and nonce |
| AccountAnswers.LoginAnswers | sdk/typescript/first_party_account_conformance.ts:114-126 | a login is refused unless it names an open login challenge and an active Device; the check asks for the key on record |
| AccountAnswers.ResumeAnswers | sdk/typescript/first_party_account_conformance.ts:93-131 | after the check: who is admitted or signed in and exactly when, with which refusal otherwise, and what changes |
| AccountAnswers.SessionNeeded | sdk/typescript/first_party_account_conformance.ts:51-134 | session routes need a session of exactly the named binding, session lookup an active Device |
| AccountAnswers.ReadAnswers | sdk/typescript/first_party_account_conformance.ts:136-146 | inspection gives the key on record of an active Device, the list every Device with whether it is revoked |
| AccountAnswers.WriteAnswers | sdk/typescript/first_party_account_conformance.ts:147-160 | rotation, revocation and logout change exactly the code, the named Device and the session they name |
| AccountAnswers.AdmittedIsTold | sdk/typescript/first_party_account_conformance.ts:96-109 | over every run, whoever is admitted, at signup or by recovery, is told the code just drawn, which is the account's code from then on; exactly one Device is added and the waiting transport is signed in as the answered binding |
| AccountAnswers.LastToldCodeIsCurrent | sdk/typescript/first_party_account_conformance.ts:96-150 | in every run an account exists exactly when its owner has been told a code, and the code told last is the account's code |
| AccountSafety.SessionsHaveAccounts | sdk/typescript/first_party_account_conformance.ts:132-135 | the account behind a session is always there, in every run |
| AccountSafety.ConsumedByItsOwnKind | sdk/typescript/first_party_account_conformance.ts:74-118 | a challenge is consumed exactly when a request of its own kind names it, for signup and recovery only with the exact binding, for login only for a live Device; the signature plays no part |
| AccountSafety.ConsumedAtMostOnce | sdk/typescript/first_party_account_conformance.ts:58-118 | over all sessions and endpoints a challenge is consumed at most once |
| AccountSafety.IssuedIdsAreNew | sdk/typescript/first_party_account_conformance.ts:58-63 | every issued challenge id is new and given to one request only |
| AccountSafety.ProofsNeverRepeat | sdk/typescript/first_party_account_conformance.ts:82-125 | no two signature checks of a run are about the same statement |
| AccountExamples.LoginChallengeIsNotBound | sdk/typescript/first_party_account_conformance.ts:111-131 | a run from the empty server, for any other binding: its login challenge is consumed by, and signs in, the signed-up Device |
| AccountSafety.AdmissionAddsOneDevice | sdk/typescript/first_party_account_conformance.ts:91-109 | an admission adds a Device that was not there, with the key whose signature was checked over a statement naming that Device and key |
| AccountSafety.OnlyAdmissionAddsDevices | sdk/typescript/first_party_account_conformance.ts:96-109 | no other step adds a Device |
| AccountSafety.RecoveryCodeAdmitsOnce | sdk/typescript/first_party_account_conformance.ts:74-110 | over every run and interleaving each recovery code admits at most one new Device |
| AccountSafety.SupersededCodeNeverAdmits | sdk/typescript/first_party_account_conformance.ts:96-150 | a code replaced by recovery or rotation never admits a Device again |
| AccountSafety.CurrentCodeAdmits | sdk/typescript/first_party_account_conformance.ts:96-110 | a correctly signed recovery goes through exactly when its code is current and its Device new |
| AccountSafety.RevocationIsPermanent | sdk/typescript/first_party_account_conformance.ts:51-156 | once revoked, a Device stays revoked under the same key in every continuation: session lookup and inspection never succeed for it, no login begins for it, nothing enrols it again |
| AccountSafety.LateLoginNeverSucceeds | sdk/typescript/first_party_account_conformance.ts:114-131 | no login whose check began after the revocation succeeds for the revoked Device |
| AccountSafety.RevokedSessionAnswers | sdk/typescript/first_party_account_conformance.ts:132-162 | exactly which requests of a revoked Device's surviving session succeed: list, rotate, log out, and revoke an existing Device |
| AccountExamples.RevokedDeviceRotates | sdk/typescript/first_party_account_conformance.ts:147-157 | a run from the empty server in which a revoked Device's session rotates the recovery code and is told the new one |
| AccountSafety.RevokeTakesEffect | sdk/typescript/first_party_account_conformance.ts:151-157 | a revocation revokes exactly the named Device and signs out its own session |
| AccountSafety.OnlyRevocationRevokes | sdk/typescript/first_party_account_conformance.ts:151-157 | a Device becomes revoked only by a session of its own account naming it |
| AccountSafety.SessionsChangeOnlyAsAsked | sdk/typescript/first_party_account_conformance.ts:107-161 | sessions are set only by their own verified request and cleared only by logout or by revoking their own Device |
| AccountSafety.SignupNeverCollides | sdk/typescript/first_party_account_conformance.ts:64-109 | no interleaving makes two signups meet: a correctly signed signup is refused exactly when it also sent a recovery code, and its account has exactly one Device |
| SfuForwarding.NumberItems | crates/ucr-api-grpc/src/sfu_node_media_client.rs:235-249 | item i carries number i+1, the caller's i-th target and the caller's envelope, for every target; overflow exactly past the 64-bit range |
| SfuForwarding.ReadReceipts | crates/ucr-api-grpc/src/sfu_node_media_client.rs:254-303 | the receipt loop computes the verdict of the whole stream |
| SfuForwarding.ForwardBatch | crates/ucr-api-grpc/src/sfu_node_media_client.rs:226-304 | the whole call over exactly that batch, including no targets, sequence overflow and a failed call |
| SfuForwarding.Probe | crates/ucr-api-grpc/src/sfu_node_media_client.rs:200-218 | succeeds exactly on an empty receipt stream |
| SfuForwarding.EveryStreamIsClassified | crates/ucr-api-grpc/src/sfu_node_media_client.rs:226-304 | for every stream: success exactly on the full in-order accepted sequence and its end; backpressure or rejection with k exactly when the first k receipts are accepted in sequence and receipt k+1 has that status; out-of-order, bad-status, early-end, extra-receipt and call failures each exactly |
| SfuForwarding.ServeStream | crates/ucr-api-grpc/src/sfu_node_media_service.rs:113-216 | the node answers in order up to the first item it cannot answer, and hands to the sink exactly the target and envelope of each item it reached and accepted |
| SfuForwarding.NodeAnswerIs | crates/ucr-api-grpc/src/sfu_node_media_service.rs:113-216 | position by position: a receipt with the item's number and the wire value of its decision exactly while all items so far are clean, and the failure at the first that is not |
| SfuForwarding.SuccessMeansUndisturbed | crates/ucr-api-grpc/src/sfu_node_media_client.rs:256-303 | behind a channel that may drop, repeat, reorder or cut off, success means the node forwarded every target and its answer arrived untouched |
| SfuForwarding.NeverOverReports | crates/ucr-api-grpc/src/sfu_node_media_client.rs:256-290 | whatever the channel does, the count carried by the result, in success or failure, is of the caller's first targets, each of which the sink took with the caller's envelope |
| SfuForwarding.AppendedReceiptsNeverSucceed | crates/ucr-api-grpc/src/sfu_node_media_client.rs:291-303 | receipts appended to the node's answer never produce a success |
| SfuForwarding.UndisturbedResult | crates/ucr-api-grpc/src/sfu_node_media_service.rs:113-216 | on an undisturbed channel the client names exactly the first target that was not forwarded, and why |
| SfuForwarding.ReportIsTotalExactlyWhen | crates/ucr-api-grpc/src/sfu_node_media_service.rs:127-145 | on an undisturbed channel, whenever the result is a failure: the targets before the first one not forwarded are the node's total exactly when every later forwarding decision comes after one that made the node give up |
| SfuForwarding.ReportCanFallShort | crates/ucr-api-grpc/src/sfu_node_media_service.rs:127-145 | a two-target batch where it falls short |
| Attachments.CountCoversSize | crates/ucr-protocol/src/attachment.rs:68-79 | the chunk count is the unique number of chunks that cover the size |
| Attachments.DescriptorVerdict | crates/ucr-protocol/src/attachment.rs:57-92 | a descriptor is accepted exactly within the stated bounds with the covering chunk count; otherwise the first condition it fails is named |
| Attachments.ChunkVerdict | crates/ucr-protocol/src/attachment.rs:98-131 | a chunk is accepted exactly when the descriptor is well shaped, the chunk is of this attachment, at the offset of its index, with all the bytes that belong there, and the bytes have its digest; otherwise what is wrong |
| Attachments.CodesAre | crates/ucr-api-grpc/src/attachment_service.rs:410-441 | which code means damage, what is missing, what was never valid |
| Attachments.VerifyCompleteAttachment | crates/ucr-protocol/src/attachment.rs:143-177 | the verifier pulls exactly the chunks up to the first missing, failing or wrong index, in order, and judges by that index |
| Attachments.VerifyCompleteFromStore | crates/ucr-api-grpc/src/attachment_service.rs:303-338 | for every store contents and failure pattern, the result is determined by the first index that is not good; a store failure there overrides the verdict |
| Attachments.SuccessExactlyWhenComplete | crates/ucr-api-grpc/src/attachment_service.rs:303-338 | success exactly when every chunk is present and in place and together they have the recorded digest |
| Attachments.ChunksTileContent | crates/ucr-protocol/src/attachment.rs:98-131 | verified chunks tile the content: each stands at its own offset and together they have exactly the recorded size |
| AttachmentStore.MemoryStore.constructor | crates/ucr-storage-memory/src/lib.rs:270-357 | the store starts empty |
| AttachmentStore.MemoryStore.RegisterAttachment | crates/ucr-api-grpc/src/attachment_service.rs:135-171 | refused as invalid exactly for a descriptor that is not well shaped and as a conflict exactly for a different one under a taken key; otherwise exactly this descriptor is stored |
| AttachmentStore.MemoryStore.PutChunk | crates/ucr-api-grpc/src/attachment_service.rs:201-240 | accepted exactly for a chunk of a registered, well-shaped attachment that is in its place, has its stated digest and is new or equal to the stored one; unknown attachments, wrong digests and different chunks are each answered exactly; nothing else changes |
| AttachmentStore.MemoryStore.VerifyAttachment | crates/ucr-api-grpc/src/attachment_service.rs:303-338 | on a reachable store the answer depends only on which chunks are there and on the digest of the assembled bytes |
| AttachmentStore.RunIsSound | crates/ucr-storage-memory/src/lib.rs:270-357 | over every run each stored descriptor is well shaped, each stored chunk is in its place in its descriptor and has its stated digest, and nothing stored is changed or removed |
| AttachmentStore.OnlyConflictsComeFromTheStore | crates/ucr-api-grpc/src/attachment_service.rs:135-240 | after the service's own checks the store can only report a conflict, and reading back a registration never fails |
| AttachmentStore.StatusTells | crates/ucr-storage-memory/src/lib.rs:270-357 | the store says persisted exactly when it grew by the record and duplicate exactly when it held the same one |
| AttachmentStore.UploadInAnyOrderVerifies | crates/ucr-protocol/src/attachment.rs:133-139 | chunks uploaded in any order, with repeats and other traffic in between, verify once all were sent |
| AttachmentStore.VerifiedIsOriginal | crates/ucr-protocol/src/attachment.rs:168-176 | unless stored and registered content collide, verification succeeds exactly when the stored bytes are complete and equal to the registered content |
| MachineKeys.SecretProvider.constructor | crates/ucr-secrets/src/lib.rs:485-488 | the provider starts empty |
| MachineKeys.SecretProvider.Provision | crates/ucr-secrets/src/lib.rs:495-516 | first provisioning, exact retry and conflict |
| MachineKeys.SecretProvider.Rotate | crates/ucr-secrets/src/lib.rs:541-578 | rotation moves current to previous unless the version is already active; a changed active id conflicts |
| MachineKeys.RotationIs | crates/ucr-secrets/src/lib.rs:541-578 | rotation replaces exactly for an id that is not active; an active id is a retry with the same material and a conflict otherwise |
| MachineKeys.NewKeySet | crates/ucr-crypto/src/machine_token.rs:134-150 | accepted exactly for one to eight keys with distinct ids |
| MachineKeys.InsertKey | crates/ucr-crypto/src/machine_token.rs:204-217 | appends a key with a new id up to the bound |
| MachineKeys.ResolveIs | crates/ucr-crypto/src/machine_token.rs:257-263 | in a key set, looking an id up finds its one key |
| MachineKeys.MaterialFromActive | crates/ucr-api-grpc/src/machine_auth_service.rs:82-99 | signing key and published keys of an active secret, and exactly when they are unavailable |
| MachineKeys.ProviderKeyMaterial | crates/ucr-api-grpc/src/machine_auth_service.rs:67-80 | succeeds exactly for a signing handle with a usable active secret, with that secret's signing key and published keys |
| MachineKeys.HistoryIsRepresented | crates/ucr-secrets/src/lib.rs:541-578 | over every run of rotation attempts the active set is the last two effective versions, and neighbouring versions never share an id |
| MachineKeys.SigningKeyIsPublished | crates/ucr-api-grpc/src/machine_auth_service.rs:57-99 | over every run the signing key is published and the key set has one or two distinct ids |
| MachineKeys.TokenVerifiesExactlyWhen | crates/ucr-api-grpc/src/machine_auth_service.rs:82-99 | a token signed at any point verifies now exactly when its id and key are those of the current or the previous version |
| MachineKeys.TokenLivesForTwoVersions | crates/ucr-api-grpc/src/machine_auth_service.rs:82-99 | with ids never reused, that is the version it was signed under and the next, and no later one |
| MachineKeys.ReusedVersionRevives | crates/ucr-secrets/src/lib.rs:541-578 | the provider accepts an older id again, and its tokens verify once more |
| MachineKeys.ParseJwks | crates/ucr-crypto/src/machine_token.rs:171-197 | a published list reads back as the key set of all its keys, or as exactly what is wrong with it |
| MachineKeys.ParseJwksText | crates/ucr-crypto/src/machine_token.rs:165-198 | the same from text: empty, oversized and unreadable text is refused |
| MachineKeys.ReadJwkIs | crates/ucr-crypto/src/machine_token.rs:171-197 | a published key is read exactly when all its members are in order, as the key its text decodes to |
| MachineKeys.PublishedReadsBack | crates/ucr-api-grpc/src/machine_auth_service.rs:204-221 | parsing a published key set gives the key set |
| Bearer.NextWord | crates/ucr-api-grpc/src/machine_api_auth.rs:122-124 | one step of the whitespace-separated word iterator |
| Bearer.DecodeAuthentication | crates/ucr-api-grpc/src/machine_api_auth.rs:98-143 | the decision over header and credential metadata, in terms of the header's words |
| Bearer.ParserInvertsPrinting | crates/ucr-api-grpc/src/machine_api_auth.rs:114-133 | the parser returns t exactly when the header is spacing, "bearer" in any case, spacing, t, spacing, within the bounds, with t legal |
| Bearer.AcceptedExactly | crates/ucr-api-grpc/src/machine_api_auth.rs:98-143 | byte by byte: blanks, "bearer" in any case, blanks, 1 to 8192 visible characters, blanks, 8224 bytes at most; the characters are the token |
| Bearer.OneWayToAuthenticate | crates/ucr-api-grpc/src/machine_api_auth.rs:98-143 | a header and credential metadata exclude each other, and a second header is refused |
| Bearer.SpacingIsTolerated | crates/ucr-api-grpc/src/machine_api_auth.rs:22-22 | any legal token with up to 25 extra spacing bytes is accepted |
| Bearer.MoreSpacingIsRefused | crates/ucr-api-grpc/src/machine_api_auth.rs:22-22 | with more, a token of the greatest length is refused |
| RecoveryCodec.AuthorityBijection | crates/ucr-api-grpc/src/recovery_service.rs:350-451 | a message decodes to an authority exactly when it is that authority's encoding |
| RecoveryCodec.AcceptedAuthorities | crates/ucr-api-grpc/src/recovery_service.rs:350-385 | exactly which kinds with which ids are accepted |
| RecoveryCodec.WireNumbers | proto/ucr/v1/recovery.proto:8-32 | the number of every authority, access, trust model and Device state |
| RecoveryCodec.IdVerdict | crates/ucr-model/src/lib.rs:139-165 | an id is the UTF-8 form of some text of 1 to 128 bytes; only too long a value is told apart |
| RecoveryCodec.AuthoritiesBijection | crates/ucr-api-grpc/src/recovery_service.rs:329-333 | the same for lists of any length |
| RecoveryCodec.PlanBijection | crates/ucr-api-grpc/src/recovery_service.rs:324-423 | the same for whole plans |
| RecoveryCodec.PlanRoundTrip | crates/ucr-api-grpc/src/recovery_service.rs:324-423 | decoding undoes encoding, and no two wire plans decode to one plan |
| RecoveryCodec.RequestDecodes | crates/ucr-api-grpc/src/recovery_service.rs:340-348 | a request decodes exactly from the encodings of its parts |
| Sbom.SplitNamesShareAnId | tools/supply_chain.py:173-177 | two different packages with one SPDX id, for any digest |
| Sbom.IdsAgreeExactlyWhen | tools/supply_chain.py:173-177 | unless the digest prefixes of the two joined texts collide, two packages share an id exactly when the joined texts and the shown parts agree |
| Sbom.SafeReplacesRuns | tools/supply_chain.py:176-176 | every maximal run of other characters becomes one hyphen |
| Sbom.SafeKeepsClean | tools/supply_chain.py:176-176 | text of allowed characters is kept as it is |
| Sbom.GenerateSbom | tools/supply_chain.py:180-229 | over the packages themselves: the entries show exactly the first package of each name, version and origin, each once, with its own name and version, its licence or the default, and the id of its texts, sorted by name, version and id, ties as scanned |
| Sbom.OneEntryPerKey | tools/supply_chain.py:181-205 | exactly one entry per distinct name, version and source, and every entry is that of a scanned package |
| Sbom.FirstWins | tools/supply_chain.py:192-193 | the first package of a key is the one kept |
| Sbom.OrderDoesNotMatter | tools/supply_chain.py:180-229 | the document depends only on the set of packages, if packages it cannot tell apart declare the same licence |
| Sbom.MetadataInAnyOrder | tools/supply_chain.py:180-229 | neither the order of files, nor the order in them, nor how packages are spread over them shows |
| Sbom.DisagreementShows | tools/supply_chain.py:218-227 | otherwise the scan order shows in the document |
| Sbom.DeterministicExactlyWhenLicencesAgree | tools/supply_chain.py:180-229 | the condition is exact over all orders of the same packages |
| Sbom.UsualMetadataAgrees | tools/supply_chain.py:192-205 | equal packages with equal licences and distinct ids per package meet the condition |
| Ordering.SortedFormIsUnique | tools/supply_chain.py:218-227 | two sorted arrangements of the same elements without ties are equal |
| Ordering.SortIsStable | tools/supply_chain.py:218-227 | sorting lists every element once, ties in their original order |
| Ordering.TextLeIs | crates/ucr-protocol/src/call.rs:702-709 | one text comes no later than another exactly when it is a prefix of it or has the smaller character at the first difference |
| Manifest.CreateManifest | tools/supply_chain.py:281-324 | succeeds exactly for distinct safe required names with exactly one file each, a full commit and a non-negative sequence; lists the required names in order and for every file its own name, size and digest; otherwise what is wrong |
| Manifest.VerifyManifest | tools/supply_chain.py:327-379 | accepts exactly when the header checks pass and every required file is there with its recorded size and digest under its own name; otherwise reports what is wrong with the first damaged file |
| Manifest.HeaderAcceptsExactly | tools/supply_chain.py:334-357 | the header passes exactly for schema 1, the expected commit, a sequence not below the minimum, and a list of distinct names that are exactly the record names |
| Manifest.HeaderRefusal | tools/supply_chain.py:334-357 | which header refusal means what, in the order of the checks |
| Manifest.IntOfIs | tools/supply_chain.py:335-345 | integers stand for themselves, true for 1, and a fraction is dropped toward zero |
| Manifest.SafeNameIs | tools/supply_chain.py:277-278 | a safe name is one path component and not the current directory |
| Manifest.CheckHeader | tools/supply_chain.py:333-357 | the checks before the files, for any JSON document |
| Manifest.CreatedVerifies | tools/supply_chain.py:281-379 | what creation accepts verifies against the unchanged directory, for the commit in any letter case and any minimum up to its sequence |
| Manifest.CreatedAcceptsExactly | tools/supply_chain.py:281-379 | a created manifest accepts a directory exactly when every listed file still has its size and digest |
| Manifest.OnlyTheOriginalsVerify | tools/supply_chain.py:359-379 | unless a file collides with the original of its name, a created manifest accepts a directory exactly when every listed file is the original |
| Manifest.CreatedRefused | tools/supply_chain.py:337-349 | it is refused for any other commit and any higher minimum |
| Manifest.NoRollbackOverRuns | tools/supply_chain.py:345-349 | in a run that raises its minimum to the last accepted sequence, accepted sequences never go down |
| Readiness.ValidateMainProof | tools/production_release.py:64-101 | accepts exactly when every required workflow has a qualifying entry and every qualifying entry a GitHub URL; every selected URL is that of a push run of the workflow on that commit that succeeded, the last such; otherwise reports the first qualifying entry without a URL or exactly the workflows without proof |
| Readiness.ProofIs | tools/production_release.py:72-83 | a workflow is proven exactly when some push run of it on this commit succeeded |
| Readiness.VerdictSeesOnlyQualifying | tools/production_release.py:64-101 | the verdict is invariant under order, repetition and any non-qualifying entries |
| Readiness.BuildReadiness | tools/production_release.py:104-185 | exactly when a document is produced, and all its gates |
| Readiness.EvidenceReads | tools/production_release.py:113-175 | the evidence text of every gate, with the workflows it names and their URLs |
| Readiness.ProversAre | tools/production_release.py:120-165 | which gates each workflow stands for; the AI actor workflow is required and stands for none |
| Readiness.ValidateShape | tools/production_readiness.py:69-103 | accepts exactly the declared shape |
| Readiness.Validate | tools/production_readiness.py:144-186 | accepts exactly the valid documents of each mode; in production mode all gates pass and a verified receipt for the same commit names artifact digest, signer and tool; in candidate mode six named gates pass; otherwise reports exactly the needed gates that do not |
| Readiness.VerifyOpenPgp | tools/platform_signing.py:64-98 | exactly one verified signature, and it is the expected one |
| Readiness.VerifyPlatformSignature | tools/platform_signing.py:156-188 | a receipt exactly when platform, commit, artifact and vouched identity fit; it names the platform, the tool and the identity that both the tool and the caller name |
| Readiness.FingerprintIsNotBlank | tools/platform_signing.py:42-48 | a normalized fingerprint is never blank |
| Readiness.FingerprintIs | tools/platform_signing.py:42-48 | a fingerprint is accepted exactly when something is left without its separators and all of it is hexadecimal |
| Readiness.CaseIsIgnored | tools/platform_signing.py:42-48 | letter case makes no difference and capitals come back |
| Readiness.SeparatorsAreIgnored | tools/platform_signing.py:42-48 | a separator anywhere makes no difference |
| Readiness.BuiltHasShape | tools/production_release.py:104-185 | every produced document passes the shape check with all gates passing |
| Readiness.EmittedIsBound | tools/platform_signing.py:180-188 | every emitted receipt satisfies the live-signing binding for its commit |
| Readiness.SigningEvidenceDisclaims | tools/production_readiness.py:178-186 | the fixed wording can neither contain a forbidden marker nor lend it a beginning |
| Readiness.BuiltValidatesExactlyWhen | tools/production_readiness.py:144-186 | a produced document with a receipt for its commit passes production mode exactly when the release URL contains neither marker in any case; candidate mode always refuses it, and so does production mode without a receipt |

## Left out

- gRPC, TLS, HTTP and SQLite plumbing: requests, responses, rows and headers are modelled as the values the code branches on.
- The credential and certificate trial loops that open the node connection: they would only add first-success search members.
- Store-level de-duplication of Call signals and the event journal around it: the model covers the protocol transition and its stored form.
- JSON text, key order and malformed bodies in the TypeScript servers: a binding is a typed value, so two texts of one binding are not told apart.
- The number suffix of generated ids in the TypeScript servers is kept as a number, since its decimal form is one to one.
- Real cryptography: signatures are verdicts, digests are arbitrary functions.
- CallReload.ReloadsEveryCall: which texts are ids and what the conversation table holds are parameters; a failing database is not modelled.
- What the node does after the client has stopped reading: `SfuForwarding.ServeStream` answers the whole batch.
- Transport failover, media coding, group encryption, conference and operator services, and the browser suites.
- Manifest.CreateManifest: takes the files in path order, since that order only decides which of several errors is raised first.
- Sbom.GenerateSbom: takes name and version as text; metadata without them is not part of this model.
- MachineKeys.ProviderKeyMaterial: speaks of the in-memory provider; a service built with fixed keys publishes whatever it was given.
