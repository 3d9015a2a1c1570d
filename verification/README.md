# StellarRoute in Dafny

A model of the parts of StellarRoute that are easiest to get wrong, with proofs about all their
inputs, all their runs and all their interleavings. `dafny verify dfyconfig.toml` checks the whole
project (Dafny 4.11).

## What is modelled

Protocols are state machines cut where the source gives up control: at its `await`s, socket
callbacks, timers and lock boundaries. One event is one stretch of code that runs without
interruption. Replies, clocks, wallets, servers and Redis are parameters or free choices of the
run. A file of the source that changes state in place is also a class here, whose methods are
proved to do what the state machine says. The results are about every run of the state machine, and
the drivers carry them back to the objects: whatever script of events a new object is given, its own
fields and log satisfy them.

| modules | source | about |
|---|---|---|
| `CctpSaga`, `CctpSagaRuns`, `CctpSagaHook`, `CctpSagaDriver`, `CctpSagaCoherence`, `CctpSagaProvenance`, `CctpSagaPending`, `CctpSagaProgress`, `CctpSagaRecovery`, `CctpSagaWitnesses` | `frontend/hooks/useCctpSaga.ts`, `frontend/lib/cctp/session-vault.ts` | the cross-chain burn and mint saga with its recovery record |
| `QuoteSocket`, `QuoteSocketClient`, `QuoteSocketProofs`, `QuoteSocketProgress`, `QuoteSocketDriver` | `sdk-js/src/websocket.ts` | the reconnecting quote socket |
| `TransactionLifecycle`, `TransactionLifecycleHook`, `TransactionLifecycleProofs`, `TransactionLifecycleProgress`, `TransactionLifecycleDriver` | `frontend/hooks/useTransactionLifecycle.ts` | build, sign and submit with cancel, deadline and retry |
| `SwapClient` | `sdk-js/src/client.ts` | swap execution with ambiguous submits |
| `KillSwitch` | `crates/api/src/kill_switch.rs` | kill switches replicated through Redis |
| `DedupeLedger` | `crates/api/src/exactlyonce.rs` | the dedupe ledger and its keys |
| `VenuePrices` | `crates/api/src/health_scheduler.rs` | best prices, price inversion, fixed point |
| `AmountInput`, `AmountNormalForms`, `AmountFloors` | `frontend/lib/amount-input.ts` | typed amounts |
| `AssetId`, `AssetIdProofs` | `sdk-js/src/types.ts` | canonical asset identifiers |
| `CsvExport`, `CsvReader` | `frontend/lib/transaction-csv-export.ts` | the CSV export and its reader |
| `StreamStatus` | `frontend/hooks/useQuoteStreamStatus.ts` | the debounced connection status |

`Options`, `Strings` and `Decimals` hold what the others share.

## Assumptions of the run theorems

- Saga: the server prepares the transfer it is asked for; `fair` means that it flags payloads with
  equal bytes equally, which payload coherence needs (`UnfairFlagsConfuse`); a reconcile returns the hash it was given. `apart` means that no quote is
  requested while an auto-reconcile is in flight and none starts during a quote; without it payload
  coherence is false (`QuoteDuringAutoReconcile`, `OfferedQuoteDuringAutoReconcile`). `driven` means that the user presses the offered
  button only. The auto-reconcile effect may run at any time, which includes every time React runs it.
- Socket: each socket opens and closes at most once, and listeners do not call back into the client.
- Lifecycle: `Apart` means that a swap is started only when no run is in flight; without it a
  cancelled run can be revived (`CancelledRunIsRevived`).
- Kill switches: that an accepted update stays needs updates that do not overlap (`SerialUpdatesStick`);
  without that it is false (`OverlappingUpdatesReorder`, `TwoServersReorder`), and memory may lag behind
  Redis even then (`StaleLoadHidesUpdate`, `AcceptedUpdateStaysIff`).
- Ledger: the clock does not go back between clean-ups and lookups.
- Decimals: `Number` is exact. Asset identifiers: of `Number` only the five SLIP-44 numerals are known.

## Where the code and its words disagree

The model follows the code.

- `crates/api/src/health_scheduler.rs:323` derives the scale 10^14; the literal below it is 10^16
  (`CodeScaleCrosses`). `VenuePrices` keeps the scale a parameter.
- `sdk-js/src/websocket.ts:277` promises that `disconnect()` prevents automatic reconnection; it
  does not after an impatient `connect()` (`DisconnectIsFinalIff`, `ImpatientConnectLeaks`).
- `frontend/hooks/useTransactionLifecycle.ts:424` says never to prepare or sign again after an
  ambiguous broadcast; a dropped swap, whose broadcast is unanswered, is started afresh (`DroppedIsUnanswered`,
  `DroppedSendsTwice`).
- `crates/api/src/kill_switch.rs:110` calls a zero duration "no TTL"; `crates/api/src/cache/mod.rs:241`
  passes it on as an expiry of zero seconds, and Redis rejects an expiry that is not positive. So no
  write through this call succeeds, and on an empty Redis no update leaves its server
  (`RefusedUpdatesStayLocal`). The other results allow every outcome of a write.
- `frontend/hooks/useCctpSaga.ts:1208` offers to retry a failed attestation, but being told of the
  failure sets the stage to failed (line 1347), which offers a new quote first
  (`FailedAttestationOffersQuote`, `PressReattests`).
- `crates/api/src/health_scheduler.rs:410` speaks of any `numeric(38,18)`; a negative one is
  converted wrongly unless its kept fraction is zero (`NegativeIsTruncatedIff`).

## Model

| member | source | states |
|---|---|---|
| `CctpSagaProvenance.HashProvenance` | frontend/hooks/useCctpSaga.ts:733-1050 | In every run, through pending transactions, reloads and reconciles, each hash submitted as a mint was returned earlier by executing a mint payload (never a Stellar trustline payload), each hash submitted as a burn by executing an approval or burn payload; when quotes and auto-reconciles stay apart and flags are consistent, a payload of the very transfer the hash is submitted to |
| `CctpSagaCoherence.PayloadCoherence` | frontend/hooks/useCctpSaga.ts:91-126 | In every state of every run that keeps quotes and auto-reconciles apart and flags consistent, a burn step shown as ready is backed by an unexpired payload with the recorded fingerprint, the matching approval flag and the session's transfer; an offered approve or burn passes the signing guard exactly when a session is left |
| `CctpSagaPending.PendingSafety` | frontend/hooks/useCctpSaga.ts:1132-1142 | In every run driven by the offered button, while the recovery record holds a pending transaction no step asks the wallet for anything, and the recorded hash is never replaced: it goes only by expiry, a cleared record or an accepted reconcile |
| `CctpSagaPending.ReconciledIsStillShown` | frontend/hooks/useCctpSaga.ts:1038-1050 | After an accepted reconcile of any role the vault remembers nothing, yet the session in memory still shows the pending entry: the offered action is a reconcile exactly unless an approval's transfer turns out completed, and it does nothing exactly while the record is in the vault |
| `CctpSagaWitnesses.QuoteDuringAutoReconcile` | frontend/hooks/useCctpSaga.ts:577-616 | Without keeping them apart, a quote requested directly during an auto-reconcile lets its late reply make a new session offer, and the signing guard accept, the old transfer's payload |
| `CctpSagaWitnesses.OfferedQuoteDuringAutoReconcile` | frontend/hooks/useCctpSaga.ts:577-616 | The same mixed state by pressing offered buttons only, when the effect runs after the prepare |
| `CctpSagaWitnesses.UnfairFlagsConfuse` | frontend/hooks/useCctpSaga.ts:770-786 | A server that flags equal bytes differently makes the hook offer, with a session, an approval its own guard refuses: consistent flags are needed |
| `CctpSagaWitnesses.OfferedWithoutSession` | frontend/hooks/useCctpSaga.ts:636-648 | Even on the strictest runs an approval can be offered after a failed auto-reconcile removed the session |
| `CctpSagaWitnesses.FlaggedEvmPayloadIsMinted` | frontend/hooks/useCctpSaga.ts:940-1006 | A trustline flag on an EVM payload is ignored: that payload is executed and its hash submitted as the mint |
| `CctpSaga.LoadedIsLive` | frontend/lib/cctp/session-vault.ts:86-114 | What is loaded is the stored record while unexpired, with its pending entry exactly while that is unexpired |
| `CctpSaga.LoadingIsUnobservable` | frontend/lib/cctp/session-vault.ts:86-114 | Loading cleans the cell, and no later load can tell |
| `CctpSagaDriver.Drive` | frontend/hooks/useCctpSaga.ts:1255-1283 | A hook object driven by any script goes through a run of the transition system: every hash in its log has its provenance, what it offers is backed, and every step of a button-driven script is safe for a pending transaction |
| `CctpSagaHook.UseCctpSaga.Handle` | frontend/hooks/useCctpSaga.ts:304-1283 | Any event that can happen does to the object what the transition system says |
| `CctpSagaHook.UseCctpSaga.constructor` | frontend/hooks/useCctpSaga.ts:134-157 | A new hook is idle and holds nothing |
| `CctpSagaHook.UseCctpSaga.PatchStep` | frontend/lib/cctp/session-vault.ts:116-128 | Patches the burn step of a live record and nothing else |
| `CctpSagaHook.UseCctpSaga.PatchPrepare` | frontend/lib/cctp/session-vault.ts:116-128 | Patches burn step and fingerprint of a live record and nothing else |
| `CctpSagaHook.UseCctpSaga.PatchPending` | frontend/lib/cctp/session-vault.ts:130-145 | Sets or clears the pending entry of a live record and nothing else |
| `CctpSagaHook.UseCctpSaga.SyncSession` | frontend/hooks/useCctpSaga.ts:197-205 | Adopts a record: session, stage of a pending one, fingerprint |
| `CctpSagaHook.UseCctpSaga.ApplyResolvedBurnStep` | frontend/hooks/useCctpSaga.ts:207-226 | Resolves the recorded step against the held payload and downgrades the record when it no longer fits |
| `CctpSagaHook.UseCctpSaga.HandleTransferStatus` | frontend/hooks/useCctpSaga.ts:350-367 | A polled status sets status and stage; a terminal one clears the vault, completion also the session |
| `CctpSagaHook.UseCctpSaga.FetchTransferStatus` | frontend/hooks/useCctpSaga.ts:547-575 | As above, and completion drops the payload and fingerprint |
| `CctpSagaHook.UseCctpSaga.AbortQuote` | frontend/hooks/useCctpSaga.ts:164-174 | An expired quote clears vault, session, payload and step |
| `CctpSagaHook.UseCctpSaga.PersistBurnPrepare` | frontend/hooks/useCctpSaga.ts:389-406 | A prepared payload, its fingerprint and its step are held in memory and in the record together |
| `CctpSagaHook.UseCctpSaga.CommitPendingEvmTx` | frontend/hooks/useCctpSaga.ts:733-743 | An unconfirmed hash is recorded with its purpose, shown, and marked as already reconciled once |
| `CctpSagaHook.UseCctpSaga.RequireReprepare` | frontend/hooks/useCctpSaga.ts:408-420 | A stale sequence drops the payload everywhere and asks to prepare again |
| `CctpSagaHook.UseCctpSaga.OnSignFailure` | frontend/hooks/useCctpSaga.ts:830-835 | The three ways a signing step can fail |
| `CctpSagaHook.UseCctpSaga.RequestQuote` | frontend/hooks/useCctpSaga.ts:422-489 | A quote request up to its await |
| `CctpSagaHook.UseCctpSaga.PrepareSourceBurn` | frontend/hooks/useCctpSaga.ts:520-531 | A prepare up to its await |
| `CctpSagaHook.UseCctpSaga.GuardSigning` | frontend/hooks/useCctpSaga.ts:770-786 | The signing guard accepts exactly when session, payload, flag and effective step agree |
| `CctpSagaHook.UseCctpSaga.SignApprovalStep` | frontend/hooks/useCctpSaga.ts:758-798 | An approval up to its wallet request; nothing happens unless the guard passes |
| `CctpSagaHook.UseCctpSaga.SignBurnStep` | frontend/hooks/useCctpSaga.ts:854-891 | A burn up to its wallet request; nothing happens unless the guard passes |
| `CctpSagaHook.UseCctpSaga.SignPreparedMintStep` | frontend/hooks/useCctpSaga.ts:932-937 | A mint up to its prepare call |
| `CctpSagaHook.UseCctpSaga.Reattest` | frontend/hooks/useCctpSaga.ts:1065-1071 | A re-attestation up to its call, nothing without a session or during the cooldown |
| `CctpSagaHook.UseCctpSaga.ReconcilePendingEvmTx` | frontend/hooks/useCctpSaga.ts:1017-1024 | A reconcile takes the recorded pending transaction, or the shown one when the vault is empty |
| `CctpSagaHook.UseCctpSaga.ResumeTransfer` | frontend/hooks/useCctpSaga.ts:657-682 | A resume loads and adopts the record, and either reports a mismatch or asks for the status |
| `CctpSagaHook.UseCctpSaga.RunPrimaryAction` | frontend/hooks/useCctpSaga.ts:1255-1283 | Runs exactly the offered action |
| `CctpSagaHook.UseCctpSaga.OfferedAction` | frontend/hooks/useCctpSaga.ts:1132-1240 | Which action is offered in which state |
| `CctpSagaHook.UseCctpSaga.QuoteArrives` | frontend/hooks/useCctpSaga.ts:489-518 | A quote becomes the record and the session together |
| `CctpSagaHook.UseCctpSaga.BurnPrepareAnswers` | frontend/hooks/useCctpSaga.ts:532-540 | A prepared burn is persisted; failures split as the source splits them |
| `CctpSagaHook.UseCctpSaga.BurnWalletAnswers` | frontend/hooks/useCctpSaga.ts:799-812 | A confirmed execution is submitted to the captured transfer, an unconfirmed one recorded as pending |
| `CctpSagaHook.UseCctpSaga.BurnSubmitAnswers` | frontend/hooks/useCctpSaga.ts:903-911 | An accepted submit clears the pending entry; a burn then waits for attestation |
| `CctpSagaHook.UseCctpSaga.ApprovalConfirmed` | frontend/hooks/useCctpSaga.ts:814-827 | A confirmed approval drops its payload everywhere before the burn is prepared |
| `CctpSagaHook.UseCctpSaga.MintPrepareAnswers` | frontend/hooks/useCctpSaga.ts:937-1001 | Trustline first when a Stellar payload asks for it, once only, then the mint |
| `CctpSagaHook.UseCctpSaga.MintWalletAnswers` | frontend/hooks/useCctpSaga.ts:960-1006 | A trustline execution leads to another prepare and is never submitted; a mint execution is submitted or recorded |
| `CctpSagaHook.UseCctpSaga.MintSubmitAnswers` | frontend/hooks/useCctpSaga.ts:1006-1014 | An accepted mint clears the pending entry |
| `CctpSagaHook.UseCctpSaga.ReceiptArrives` | frontend/hooks/useCctpSaga.ts:1024-1037 | A mined pending hash is submitted in the role it was recorded for |
| `CctpSagaHook.UseCctpSaga.ReconcileSubmitAnswers` | frontend/hooks/useCctpSaga.ts:1038-1050 | An accepted reconcile clears the entry and moves on by role |
| `CctpSagaHook.UseCctpSaga.ReconcileConfirmed` | frontend/hooks/useCctpSaga.ts:1040-1044 | A reconciled approval handles the status and resets step and stage; the session is not refreshed |
| `CctpSagaHook.UseCctpSaga.LoseAuthorization` | frontend/hooks/useCctpSaga.ts:636-648 | A failed status call drops vault and session |
| `CctpSagaHook.UseCctpSaga.ResumeConfirmed` | frontend/hooks/useCctpSaga.ts:682-724 | A resumed transfer resolves its step against what was captured before the call |
| `CctpSagaHook.UseCctpSaga.ReattestAnswers` | frontend/hooks/useCctpSaga.ts:1071-1093 | The status a re-attestation reports |
| `CctpSagaHook.UseCctpSaga.AutoReconcileOnce` | frontend/hooks/useCctpSaga.ts:577-606 | An auto-reconcile starts at most once per record revision |
| `CctpSagaHook.UseCctpSaga.AdoptActiveRecord` | frontend/hooks/useCctpSaga.ts:610-613 | The record loaded after the call, or the captured one, is adopted |
| `CctpSagaHook.UseCctpSaga.AutoReconcileAnswers` | frontend/hooks/useCctpSaga.ts:606-648 | What an auto-reconcile reply does to stage, session and step |
| `CctpSagaHook.UseCctpSaga.InputsChange` | frontend/hooks/useCctpSaga.ts:304-316 | Unlocked input changes reset the step and a shown quote |
| `CctpSagaHook.UseCctpSaga.ResetSaga` | frontend/hooks/useCctpSaga.ts:1104-1122 | A reset clears vault, session, payload and refs |
| `CctpSagaHook.UseCctpSaga.Remount` | frontend/hooks/useCctpSaga.ts:318-334 | A reload keeps the vault only and restores from it |
| `CctpSagaProgress.TransferGoesThrough` | frontend/hooks/useCctpSaga.ts:422-1015 | From every resting state that offers a quote, pressing only the offered button and getting friendly answers takes one transfer all the way: its burn and then its mint are requested, executed and submitted, each once, to the quoted transfer, and nothing else reaches the outside world |
| `CctpSagaProgress.PressIsInert` | frontend/hooks/useCctpSaga.ts:1132-1240 | With the bridge away, after completion, or while the attestation is awaited, a press changes nothing |
| `CctpSagaProgress.PressQuotes` | frontend/hooks/useCctpSaga.ts:1171-1173 | Idle or failed, a press waits for a quote of the current inputs |
| `CctpSagaProgress.PressPrepares` | frontend/hooks/useCctpSaga.ts:1174-1188 | Quoted with nothing prepared, it waits for a prepare of the session's transfer |
| `CctpSagaProgress.PressSigns` | frontend/hooks/useCctpSaga.ts:1189-1202 | Quoted with a fitting payload, it asks the wallet for exactly that payload, as an approval or as a burn by its flag |
| `CctpSagaProgress.PressMints` | frontend/hooks/useCctpSaga.ts:1159-1170 | Once the attestation is there, it waits for the mint prepare of the session's transfer |
| `CctpSagaProgress.PressReconciles` | frontend/hooks/useCctpSaga.ts:1136-1142 | While a pending transaction is shown it asks for the receipt of the recorded one, else of the shown one |
| `CctpSagaProgress.PressResumes` | frontend/hooks/useCctpSaga.ts:1143-1149 | A saved transfer of the same inputs is resumed from the vault |
| `CctpSagaProgress.PressReattests` | frontend/hooks/useCctpSaga.ts:1208-1216 | A failed attestation is asked for again from the stages that offer nothing else |
| `CctpSagaProgress.FailedAttestationOffersQuote` | frontend/hooks/useCctpSaga.ts:1346-1348 | But being told of the failure leads to the offer of a new quote |
| `CctpSagaProgress.QuoteLeadsToPrepare` | frontend/hooks/useCctpSaga.ts:489-518 | A quote becomes session and record, and the next press prepares it |
| `CctpSagaProgress.PrepareLeadsToSignature` | frontend/hooks/useCctpSaga.ts:389-406 | A prepared payload is held and recorded, and the next press asks the wallet to sign just that |
| `CctpSagaProgress.SignatureIsSubmitted` | frontend/hooks/useCctpSaga.ts:799-812 | A confirmed execution is submitted to the transfer it was started for |
| `CctpSagaProgress.UnconfirmedIsRecorded` | frontend/hooks/useCctpSaga.ts:733-743 | An unconfirmed approval, burn or mint is recorded for half an hour, is left alone by the auto-reconcile, and the next press asks for its receipt |
| `CctpSagaProgress.ReceiptIsSubmitted` | frontend/hooks/useCctpSaga.ts:1024-1050 | A mined pending transaction is submitted once in its recorded role, then forgotten |
| `CctpSagaProgress.AcceptedBurnWaits` | frontend/hooks/useCctpSaga.ts:903-911 | An accepted burn drops its payload and waits with nothing offered |
| `CctpSagaProgress.ApprovalLeadsToBurn` | frontend/hooks/useCctpSaga.ts:814-827 | A confirmed approval leads on, in order, to the signature request of the burn that was prepared after it |
| `CctpSagaProgress.PollLeadsToMint` | frontend/hooks/useCctpSaga.ts:350-367 | Learning that the attestation is there makes the next press prepare the mint, whatever was shown |
| `CctpSagaProgress.MintIsSubmitted` | frontend/hooks/useCctpSaga.ts:937-1014 | A prepared mint is requested, executed and submitted to the session's transfer |
| `CctpSagaProgress.TrustlineLeadsToMint` | frontend/hooks/useCctpSaga.ts:940-1014 | A missing trustline is opened first, its hash submitted nowhere, then the mint goes on |
| `CctpSagaProgress.StaleSequenceLeadsToPrepare` | frontend/hooks/useCctpSaga.ts:408-420 | Wherever the source-chain step fails with a stale sequence, the payload goes from memory and record and the next press prepares again |
| `CctpSagaProgress.SourceFailureLeadsToQuote` | frontend/hooks/useCctpSaga.ts:830-835 | An expired quote leaves the form only, any other failure keeps everything; both lead to a new quote |
| `CctpSagaProgress.PrepareFailureLeadsToPrepare` | frontend/hooks/useCctpSaga.ts:532-540 | A failed prepare is tried again by the next press unless the quote expired |
| `CctpSagaProgress.MintFailureLeadsToMint` | frontend/hooks/useCctpSaga.ts:1008-1014 | However a mint fails, what is due is kept and the next press prepares the mint again, not a new quote |
| `CctpSagaProgress.QuoteFailureLeadsToQuote` | frontend/hooks/useCctpSaga.ts:422-489 | A failed quote is asked for again; without the bridge none is |
| `CctpSagaProgress.UnconfirmedTrustlineFails` | frontend/hooks/useCctpSaga.ts:960-975 | A trustline that is not confirmed is not built upon |
| `CctpSagaProgress.MintNeedsRoles` | frontend/hooks/useCctpSaga.ts:937-958 | A mint prepared without the wallets its roles need is dropped unsigned |
| `CctpSagaProgress.AcceptedMintIsForgotten` | frontend/hooks/useCctpSaga.ts:1006-1014 | An accepted mint is pending nowhere |
| `CctpSagaProgress.CompletionEnds` | frontend/hooks/useCctpSaga.ts:350-367 | Completion clears session and record, and nothing is offered any more |
| `CctpSagaRecovery.PendingBurnGoesThrough` | frontend/hooks/useCctpSaga.ts:318-1050 | Wherever the page is reloaded with a pending burn on record, whatever was under way: pressing only the offered button and getting friendly answers submits that burn and then mints the same transfer, each once |
| `CctpSagaRecovery.RecoveredMintGoesThrough` | frontend/hooks/useCctpSaga.ts:318-1015 | Wherever the page is reloaded with a live record and nothing pending: once the transfer is attested, it is minted in the same way, and nothing else is done |
| `CctpSagaRecovery.PendingIsSubmitted` | frontend/hooks/useCctpSaga.ts:318-1050 | A reload, a press and friendly answers submit the recorded burn exactly once and clear the entry |
| `CctpSagaRecovery.ReloadRestores` | frontend/hooks/useCctpSaga.ts:318-334 | A reload finds the record and nothing else; a payload that was ready has to be prepared anew, also on record |
| `CctpSagaRecovery.ReloadReconciles` | frontend/hooks/useCctpSaga.ts:318-334 | With something pending the next press asks for its receipt, whatever the inputs |
| `CctpSagaRecovery.ReloadResumes` | frontend/hooks/useCctpSaga.ts:318-334 | With nothing pending the next press resumes the record of the same inputs |
| `CctpSagaRecovery.ReloadStartsOver` | frontend/hooks/useCctpSaga.ts:318-334 | With no live record a reload starts over |
| `CctpSagaRecovery.OtherInputsWait` | frontend/hooks/useCctpSaga.ts:657-682 | A record of other inputs is shown but not acted upon |
| `CctpSagaRecovery.ResumeGoesOn` | frontend/hooks/useCctpSaga.ts:682-724 | A resumed transfer goes on to a new prepare or, once attested, to the mint of the same transfer |
| `CctpSagaRecovery.ResumeShowsPending` | frontend/hooks/useCctpSaga.ts:682-724 | A pending transaction found while resuming is shown, not signed over |
| `CctpSagaRecovery.ResumeFindsDone` | frontend/hooks/useCctpSaga.ts:547-575 | A transfer found done leaves neither record, session nor payload |
| `CctpSagaRecovery.LostAuthorizationLeadsToQuote` | frontend/hooks/useCctpSaga.ts:636-648 | A refused status drops record and session, and a quote is offered |
| `CctpSagaRecovery.AttestingIsAwaited` | frontend/hooks/useCctpSaga.ts:350-367 | A submitted or attesting burn is waited for, with nothing offered, whatever was before |
| `CctpSagaRecovery.KilledProviderEnds` | frontend/hooks/useCctpSaga.ts:350-367 | A killed provider clears the record and nothing is offered |
| `CctpSagaRecovery.OtherReports` | frontend/hooks/useCctpSaga.ts:350-367 | A cancelled transfer loses its record; the other reports change nothing but the status |
| `CctpSagaRecovery.UnminedStaysRecorded` | frontend/hooks/useCctpSaga.ts:1024-1037 | A transaction not mined yet stays recorded and its receipt is asked for again |
| `CctpSagaRecovery.RefusedStaysRecorded` | frontend/hooks/useCctpSaga.ts:1038-1050 | So does one whose submit is refused |
| `CctpSagaRecovery.ReconciledGoesOn` | frontend/hooks/useCctpSaga.ts:1038-1050 | A reconciled burn waits for its attestation, a reconciled mint stays where it was |
| `CctpSagaRecovery.ReconciledApprovalGoesBack` | frontend/hooks/useCctpSaga.ts:1040-1044 | A reconciled approval resets the step in memory and on record |
| `CctpSagaRecovery.ReattestTells` | frontend/hooks/useCctpSaga.ts:1071-1093 | A re-attestation has the effect of a poll, or none |
| `CctpSagaRecovery.ResetForgets` | frontend/hooks/useCctpSaga.ts:1104-1122 | After a reset everything, even a reload, starts from the beginning |
| `CctpSagaRecovery.AutoRunsOnce` | frontend/hooks/useCctpSaga.ts:577-606 | A record not yet looked at is looked at once: running the effect again does nothing |
| `CctpSagaRecovery.AutoNeedsRecord` | frontend/hooks/useCctpSaga.ts:577-606 | Without bridge, session or live record the effect does nothing |
| `CctpSagaRecovery.AutoOfOtherInputs` | frontend/hooks/useCctpSaga.ts:577-606 | A record of other inputs is offered for resuming instead |
| `CctpSagaRecovery.AutoAdopts` | frontend/hooks/useCctpSaga.ts:606-616 | The answer makes the record the session again, with whatever it has pending |
| `CctpSagaRecovery.AutoAnswers` | frontend/hooks/useCctpSaga.ts:606-648 | A pending transaction is shown; else, unless the transfer has failed, what is left is quoted again |
| `CctpSagaRecovery.AutoKeepsPayloadIff` | frontend/hooks/useCctpSaga.ts:207-226 | A ready payload stays ready exactly while it is unexpired and has the recorded fingerprint; else the record says to prepare again |
| `CctpSagaRecovery.AutoFindsDone` | frontend/hooks/useCctpSaga.ts:547-575 | A transfer found done takes its payload with it |
| `CctpSagaRecovery.LockedInputs` | frontend/hooks/useCctpSaga.ts:304-316 | While a session is under way changing the form changes the inputs only |
| `CctpSagaRecovery.FreeInputs` | frontend/hooks/useCctpSaga.ts:304-316 | Otherwise it resets the step and a shown quote |
| `QuoteSocketProofs.SubscriptionAgreement` | sdk-js/src/websocket.ts:215-226 | With fresh ids, in every state of every run a connected client's open socket has carried, as multisets, its unsubscribes plus exactly the values of the subscription map, across any drops and reconnects |
| `QuoteSocketProofs.AgreementNeedsFreshId` | sdk-js/src/websocket.ts:389-402 | While connected, subscribing keeps the agreement exactly when the id is not in use |
| `QuoteSocketProofs.ReconnectAccounting` | sdk-js/src/websocket.ts:484-498 | In every state the attempt counter equals the reconnects scheduled since the last open and never exceeds the maximum; with a multiplier of at least one their delays never shrink and never pass the cap |
| `QuoteSocketProofs.GrowthNeedsMultiplier` | sdk-js/src/websocket.ts:486-489 | The delays never shrink exactly when the multiplier is at least one |
| `QuoteSocketProofs.OneReconnectTimer` | sdk-js/src/websocket.ts:190-247 | If connect() is never called while a reconnect is pending, at most one reconnect timer is pending and the client can cancel it |
| `QuoteSocketProofs.OneConnectionTimer` | sdk-js/src/websocket.ts:207-213 | At most the one cancellable connection timer is pending, none while disconnected |
| `QuoteSocketProofs.DisconnectIsFinalIff` | sdk-js/src/websocket.ts:279-292 | After disconnect() no run without connect() leaves the disconnected state exactly when every pending reconnect timer is the one the client holds |
| `QuoteSocketProofs.ImpatientConnectLeaks` | sdk-js/src/websocket.ts:190-213 | Calling connect() during a pending reconnect and losing the new socket leaves a timer disconnect() cannot cancel |
| `QuoteSocketDriver.Drive` | sdk-js/src/websocket.ts:190-508 | A client object driven by any script keeps the accounting; with fresh ids its open socket carries exactly its subscriptions; with a patient caller at most one reconnect timer is pending and disconnecting is final |
| `QuoteSocketClient.StellarRouteWebSocket.constructor` | sdk-js/src/websocket.ts:153-180 | A new client is disconnected and empty |
| `QuoteSocketClient.StellarRouteWebSocket.Handle` | sdk-js/src/websocket.ts:190-508 | Any call, socket event or timer does to the object what the state machine says |
| `QuoteSocketClient.StellarRouteWebSocket.Connect` | sdk-js/src/websocket.ts:190-213 | Opens a socket and arms its timeout unless connected or connecting; a throwing factory leaves it disconnected |
| `QuoteSocketClient.StellarRouteWebSocket.OnOpen` | sdk-js/src/websocket.ts:215-226 | Opening the current socket resets the counter and resubscribes everything in map order; others are ignored |
| `QuoteSocketClient.StellarRouteWebSocket.OnClose` | sdk-js/src/websocket.ts:228-247 | Losing the current socket schedules a reconnect while allowed |
| `QuoteSocketClient.StellarRouteWebSocket.OnError` | sdk-js/src/websocket.ts:249-260 | An error only clears the connection timeout |
| `QuoteSocketClient.StellarRouteWebSocket.OnConnectionTimeout` | sdk-js/src/websocket.ts:207-213 | A timeout closes the current socket if it is not open |
| `QuoteSocketClient.StellarRouteWebSocket.OnReconnectTimeout` | sdk-js/src/websocket.ts:493-497 | The reconnect timer connects |
| `QuoteSocketClient.StellarRouteWebSocket.Disconnect` | sdk-js/src/websocket.ts:279-292 | Clears the timers it holds, closes and forgets the socket and the subscriptions |
| `QuoteSocketClient.StellarRouteWebSocket.ScheduleReconnect` | sdk-js/src/websocket.ts:484-498 | Counts the attempt and arms a timer with the capped exponential delay |
| `QuoteSocketClient.StellarRouteWebSocket.ResubscribeAll` | sdk-js/src/websocket.ts:500-508 | One subscribe per map entry, in order |
| `QuoteSocketClient.StellarRouteWebSocket.Subscribe` | sdk-js/src/websocket.ts:389-402 | Stores the subscription and sends it when connected |
| `QuoteSocketClient.StellarRouteWebSocket.Unsubscribe` | sdk-js/src/websocket.ts:331-348 | Forgets a known id and sends the unsubscribe when connected |
| `QuoteSocketClient.StellarRouteWebSocket.UnsubscribeAll` | sdk-js/src/websocket.ts:353-357 | Unsubscribes every id and empties the map |
| `QuoteSocketClient.StellarRouteWebSocket.ClearConnectionTimeout` | sdk-js/src/websocket.ts:517-522 | Cancels the held connection timer only |
| `QuoteSocketClient.StellarRouteWebSocket.ClearReconnectTimeout` | sdk-js/src/websocket.ts:510-515 | Cancels the held reconnect timer only |
| `QuoteSocketClient.StellarRouteWebSocket.SendMessage` | sdk-js/src/websocket.ts:408-412 | Sends on an open socket, drops the message otherwise |
| `QuoteSocketProgress.CloseSchedulesIff` | sdk-js/src/websocket.ts:228-247 | Losing a socket arms a new reconnect timer, held by the client and with the attempt counted, exactly when it is the current socket, reconnecting is wanted and attempts are left |
| `QuoteSocketProgress.ReconnectRestores` | sdk-js/src/websocket.ts:190-247 | After a loss the scheduled reconnect and the opening of its socket give a connected client whose new socket carries every subscription of the map |
| `QuoteSocketProgress.ConnectOpens` | sdk-js/src/websocket.ts:190-213 | A disconnected client opens one socket under a timeout; a throwing factory leaves it disconnected, still wanting to reconnect |
| `QuoteSocketProgress.OpenConnects` | sdk-js/src/websocket.ts:215-226 | Opening the current socket connects and sends every subscription in map order |
| `QuoteSocketProgress.TimeoutCloses` | sdk-js/src/websocket.ts:207-213 | A connection timeout closes the current socket unless it is open, and touches no other |
| `QuoteSocketProgress.DisconnectMeans` | sdk-js/src/websocket.ts:279-292 | Disconnecting closes and forgets the current socket and the subscriptions, cancels the timers it holds and wants no reconnect |
| `QuoteSocketProgress.LossStopsTimer` | sdk-js/src/websocket.ts:228-260 | Losing or failing the current socket cancels its connection timer |
| `QuoteSocketProgress.DelaysMultiply` | sdk-js/src/websocket.ts:484-498 | Each delay is the one before times the multiplier, capped, from the initial one on |
| `QuoteSocketProgress.MapFollowsCalls` | sdk-js/src/websocket.ts:389-402 | In every state of every run the subscription map is what the calls so far say: the last subscribe of an id not unsubscribed since |
| `TransactionLifecycleProofs.SignOnceSendSame` | frontend/hooks/useTransactionLifecycle.ts:285-353 | In runs where a swap starts only after the previous run has settled, each swap asks for at most one build and one signature, and everything sent for it, first try or retry, is the envelope that signature returned |
| `TransactionLifecycleProofs.ConfirmedHasHash` | frontend/hooks/useTransactionLifecycle.ts:352-362 | In every state of every run, confirmed comes with the hash of an accepted submit |
| `TransactionLifecycleProofs.RetrySendsHeldEnvelope` | frontend/hooks/useTransactionLifecycle.ts:425-462 | In such runs a reconcile retry sends the envelope that was signed and already sent for the failed swap, and asks neither builder nor wallet; try again does the same |
| `TransactionLifecycleProofs.CancelIsFinal` | frontend/hooks/useTransactionLifecycle.ts:413-420 | In such runs, once a pending swap is cancelled no later reply to a run then in flight sends, asks or changes the status |
| `TransactionLifecycleProofs.CancelledRunIsRevived` | frontend/hooks/useTransactionLifecycle.ts:185-188 | The shared cancel flag: starting the next swap revives a cancelled signature, whose envelope is then sent |
| `TransactionLifecycleProofs.DroppedIsUnanswered` | frontend/hooks/useTransactionLifecycle.ts:464-466 | In such runs a dropped swap has its envelope sent and unanswered; resubmitting leaves that in flight and, unless misconfigured, asks for a second envelope of a new swap |
| `TransactionLifecycleProofs.DroppedSendsTwice` | frontend/hooks/useTransactionLifecycle.ts:464-466 | Every run with a dropped swap can be continued until two envelopes, the second any the wallet signs, are sent for one trade with neither submit answered |
| `TransactionLifecycleDriver.Drive` | frontend/hooks/useTransactionLifecycle.ts:185-506 | A hook object driven by any script shows confirmed only with an accepted hash; if nothing starts while a run is in flight, its log asks and signs once per swap sends one envelope, and sends nothing after its acceptance |
| `TransactionLifecycleProofs.DismissedRunStillSends` | frontend/hooks/useTransactionLifecycle.ts:499-506 | Dismissing does not stop a pending swap: its signature is still sent |
| `TransactionLifecycleProgress.AcceptedIsNotSentAgain` | frontend/hooks/useTransactionLifecycle.ts:285-466 | In every run whose starts stay apart, nothing of a swap is sent after that swap was accepted, through retries, deadlines, cancels and dismissals |
| `TransactionLifecycleProgress.SubmitAnswered` | frontend/hooks/useTransactionLifecycle.ts:352-397 | An uncancelled submit's answer confirms with its hash or fails with its error, and ends its deadline |
| `TransactionLifecycleProgress.BuildAnswered` | frontend/hooks/useTransactionLifecycle.ts:252-290 | A built envelope goes to the wallet, a failed build fails the swap |
| `TransactionLifecycleProgress.SignAnswered` | frontend/hooks/useTransactionLifecycle.ts:290-353 | A signature is held and sent at once under a deadline; a refusal fails the swap and holds nothing |
| `TransactionLifecycleProgress.SwapGoesThrough` | frontend/hooks/useTransactionLifecycle.ts:185-362 | With friendly answers a swap is built, signed, sent and confirmed, each exactly once and in that order |
| `TransactionLifecycleProgress.SwapStarts` | frontend/hooks/useTransactionLifecycle.ts:185-252 | A swap starts clean; a misconfigured one fails without asking anyone |
| `TransactionLifecycleProgress.CancelledIsDropped` | frontend/hooks/useTransactionLifecycle.ts:252-353 | A cancelled run ends at its next answer without changing the status |
| `TransactionLifecycleProgress.CancelMeans` | frontend/hooks/useTransactionLifecycle.ts:413-420 | Cancelling acts on a pending swap only |
| `TransactionLifecycleProgress.DeadlinePasses` | frontend/hooks/useTransactionLifecycle.ts:331-350 | A deadline drops a swap that is still submitted and nothing else |
| `TransactionLifecycleProgress.UnresolvedIsResent` | frontend/hooks/useTransactionLifecycle.ts:425-462 | A failed swap of unknown outcome whose envelope is held is resent, either way, as the same envelope of the same swap under a new deadline |
| `TransactionLifecycleProgress.ResubmitOtherwise` | frontend/hooks/useTransactionLifecycle.ts:464-466 | Otherwise resubmitting starts a dropped swap again, or does nothing |
| `TransactionLifecycleProgress.BackToReview` | frontend/hooks/useTransactionLifecycle.ts:480-506 | Otherwise trying again returns to review with the trade, dismissing without it |
| `TransactionLifecycleHook.Lifecycle.Handle` | frontend/hooks/useTransactionLifecycle.ts:185-506 | Any call or reply does to the object what the state machine says |
| `TransactionLifecycleHook.Lifecycle.InitiateSwap` | frontend/hooks/useTransactionLifecycle.ts:185-252 | Clears the previous swap, refuses a misconfigured wallet swap, otherwise asks for the envelope or the signature |
| `TransactionLifecycleHook.Lifecycle.OnBuilt` | frontend/hooks/useTransactionLifecycle.ts:252-290 | A built envelope goes to the wallet unless cancelled |
| `TransactionLifecycleHook.Lifecycle.OnSigned` | frontend/hooks/useTransactionLifecycle.ts:290-353 | A signature is held, then announced and sent under a deadline unless cancelled |
| `TransactionLifecycleHook.Lifecycle.OnSubmitted` | frontend/hooks/useTransactionLifecycle.ts:352-397 | A submit reply clears the deadline and confirms or fails unless cancelled |
| `TransactionLifecycleHook.Lifecycle.OnDeadline` | frontend/hooks/useTransactionLifecycle.ts:331-350 | A passed deadline drops a submitted swap only |
| `TransactionLifecycleHook.Lifecycle.Cancel` | frontend/hooks/useTransactionLifecycle.ts:413-420 | Cancels a pending swap only |
| `TransactionLifecycleHook.Lifecycle.Resubmit` | frontend/hooks/useTransactionLifecycle.ts:422-466 | Retries a reconcilable swap with its envelope, or starts a dropped one again |
| `TransactionLifecycleHook.Lifecycle.TryAgain` | frontend/hooks/useTransactionLifecycle.ts:480-497 | Retries a reconcilable swap, otherwise returns to review without the envelope |
| `TransactionLifecycleHook.Lifecycle.Dismiss` | frontend/hooks/useTransactionLifecycle.ts:499-506 | Returns to review and forgets the trade |
| `SwapClient.ExecuteSwap` | sdk-js/src/client.ts:651-773 | For every server and wallet: the whole effect trace is the prepare attempts, then at most one signature, then submits of one body, with the exact number of each and the outcome decided by the last reply |
| `SwapClient.SignsOnceAndOnlyAfterChecks` | sdk-js/src/client.ts:666-719 | Any signature in a trace is the only one, is for the prepared envelope, and the mode, envelope and passphrase checks held |
| `SwapClient.SubmitsAreIdentical` | sdk-js/src/client.ts:721-735 | Every fetch after the prepare submits the prepared quote id with the one signed envelope, after the signature |
| `SwapClient.OneFetchPerSubmit` | sdk-js/src/client.ts:733-733 | Each submit is exactly one fetch and there are at most limit + 1 |
| `SwapClient.FirstDecisionEndsIt` | sdk-js/src/client.ts:730-744 | The first success or unambiguous error ends the submits and decides the outcome |
| `SwapClient.ExhaustionIsMarked` | sdk-js/src/client.ts:736-760 | Only ambiguous replies: exactly limit + 1 submits, and the last error marked pending_reconcile with the quote id |
| `SwapClient.NegativeLimitNeverSubmits` | sdk-js/src/client.ts:726-760 | With a negative limit the signed envelope is never sent, yet the error asks to reconcile it |
| `SwapClient.NoObjectionIffReady` | sdk-js/src/client.ts:666-710 | The checks before signing pass exactly for a classic envelope on the wallet's own network |
| `SwapClient.Submit` | sdk-js/src/client.ts:721-760 | The submit loop: stops at the first decisive reply or the limit, one back-off between submits, none after the last |
| `SwapClient.SubmitSwap` | sdk-js/src/client.ts:537-550 | Without retries a submit is one fetch |
| `SwapClient.Request` | sdk-js/src/client.ts:1019-1101 | A request repeats one call, stops at the first reply that is not retryable or when retries run out, and pauses by Retry-After or doubling back-off |
| `SwapClient.StopIsUnique` | sdk-js/src/client.ts:1064-1095 | A request can stop at one fetch only |
| `SwapClient.SubmitStopIsUnique` | sdk-js/src/client.ts:730-744 | The submit loop can stop after one number of submits only |
| `SwapClient.Prepare` | sdk-js/src/client.ts:509-529 | A prepare without an envelope is an error, otherwise its payload |
| `SwapClient.CheckAndSign` | sdk-js/src/client.ts:666-719 | Nothing is signed unless every check passes; an unusable signature is an error |
| `SwapClient.Finish` | sdk-js/src/client.ts:666-773 | Everything after the prepare |
| `SwapClient.UnclearRepliesExhaust` | sdk-js/src/client.ts:121-128 | If every reply to the submits is lost, or refused with status 0 or 503 or as an unavailable dependency or network error, there are exactly limit + 1 submits and the last error, otherwise unchanged, is marked to be reconciled |
| `SwapClient.FirstClearReplyEnds` | sdk-js/src/client.ts:730-760 | Any other first reply ends it there: a payload is the result, a refusal or garbled answer is passed on as it came, only an empty answer is left to be reconciled |
| `SwapClient.RequestGoesOnIff` | sdk-js/src/client.ts:1064-1095 | A request goes on past lost replies, 429 and server errors only, and as long as retries last |
| `SwapClient.PauseIs` | sdk-js/src/client.ts:1064-1101 | A pause is what the server asks for, else half a second doubled per attempt |
| `SwapClient.ObjectionSays` | sdk-js/src/client.ts:666-710 | Each refusal to sign says which check failed first |
| `DedupeLedger.LookupRefinesLog` | crates/api/src/exactlyonce.rs:77-120 | After every trace of records, lookups and clean-ups under a clock that does not go back, a lookup answers what an append-only log would: the latest record of the key if not older than its ttl |
| `DedupeLedger.LookupMeans` | crates/api/src/exactlyonce.rs:45-115 | After every such trace a lookup at now answers the response of e exactly while e is the last record of the key and now <= createdAt + ttl, and nothing when the key was never recorded or its time has passed |
| `DedupeLedger.AnswersAreCurrent` | crates/api/src/exactlyonce.rs:45-115 | Whatever the clock reads at the lookup, an answer is the last record of its key and still fresh |
| `DedupeLedger.LatestMeans` | crates/api/src/exactlyonce.rs:96-98 | The latest record of a key is the one no later record of the key follows |
| `DedupeLedger.SpellingsAgree` | crates/routing/src/lib.rs:73-80 | Assets that agree in lower case share a key, and so do all spellings of the native one |
| `DedupeLedger.ClockMustNotGoBack` | crates/api/src/exactlyonce.rs:45-53 | With a clock that goes back a clean-up becomes observable |
| `DedupeLedger.KeyIsFaithful` | crates/api/src/exactlyonce.rs:27-34 | Keys are equal exactly when normalised base and quote, amount, slippage and type are, if the base has no slash and amount and type no colon; the quote asset may hold any character |
| `DedupeLedger.ColonsCollide` | crates/api/src/exactlyonce.rs:27-34 | A colon in the amount lets two different requests share a key |
| `DedupeLedger.Ledger.constructor` | crates/api/src/exactlyonce.rs:69-74 | A new ledger is empty |
| `DedupeLedger.Ledger.RecordResponse` | crates/api/src/exactlyonce.rs:77-99 | Recording appends to the abstract log; the time stamp may be older than the clock |
| `DedupeLedger.Ledger.LookUp` | crates/api/src/exactlyonce.rs:102-114 | A lookup answers as the log does whenever the clock has not gone back since a clean-up |
| `DedupeLedger.Ledger.CleanUp` | crates/api/src/exactlyonce.rs:116-119 | The retain loop, one clock reading per entry: only expired entries go, only entries fresh at a reading stay, the abstract log is untouched |
| `KillSwitch.WholeStatesOnly` | crates/api/src/kill_switch.rs:36-121 | In every interleaving of updates, writes, failed or half-failed writes, loads and misses, every memory is the default or one whole supplied state and Redis is empty or holds one |
| `KillSwitch.Convergence` | crates/api/src/kill_switch.rs:36-62 | Once updates have stopped, one finished load per server begun afterwards makes every memory equal to Redis, and later loads keep it so |
| `KillSwitch.SerialUpdatesStick` | crates/api/src/kill_switch.rs:82-121 | In every run whose updates begin only while nothing is unwritten, Redis holds the latest supplied state whose write took effect, whatever is loaded, lost or fails |
| `KillSwitch.SerialUpdatesConverge` | crates/api/src/kill_switch.rs:36-121 | After such a run one finished load per server brings every memory to that state |
| `KillSwitch.AcceptedUpdateStaysIff` | crates/api/src/kill_switch.rs:36-121 | In any cluster an accepted write survives the server's next load exactly when what was written is what the server holds |
| `KillSwitch.OverlappingUpdatesReorder` | crates/api/src/kill_switch.rs:82-121 | Two overlapping updates on one server can both succeed and leave Redis with the earlier one |
| `KillSwitch.TwoServersReorder` | crates/api/src/kill_switch.rs:82-121 | So can one update on each of two servers |
| `KillSwitch.StaleLoadHidesUpdate` | crates/api/src/kill_switch.rs:36-121 | A load read before an update and applied after it leaves the server with the old state although the update is accepted |
| `KillSwitch.RefusedUpdatesStayLocal` | crates/api/src/kill_switch.rs:104-117 | If Redis is empty and refuses every write, no update ever reaches another server |
| `KillSwitch.VerdictMeans` | crates/routing/src/health/policy.rs:98-129 | The overrides exclude a venue exactly when its source is switched off, or the venue is and its source has no directive; so forcing a source in overrules its venues' kill switches |
| `KillSwitch.ShutOutMeans` | crates/routing/src/cross_chain.rs:194-208 | A provider is shut out exactly by its kill switch, the denylist, or an allowlist without it; an unnamed one never is |
| `KillSwitch.LoadInSteps` | crates/api/src/kill_switch.rs:36-62 | Uninterrupted, the two steps of a load are the method Load |
| `KillSwitch.UpdateInSteps` | crates/api/src/kill_switch.rs:82-121 | Uninterrupted, the two steps of an update are the method UpdateState |
| `KillSwitch.KillSwitchManager.constructor` | crates/api/src/kill_switch.rs:28-33 | A new manager holds the default state |
| `KillSwitch.KillSwitchManager.Load` | crates/api/src/kill_switch.rs:36-62 | A hit replaces the whole state, anything else changes nothing |
| `KillSwitch.KillSwitchManager.UpdateState` | crates/api/src/kill_switch.rs:82-121 | Memory first, then Redis; an error keeps the new state in memory |
| `KillSwitch.KillSwitchManager.GetOverrideRegistry` | crates/api/src/kill_switch.rs:124-130 | The registry handed out excludes exactly the venues the current state switches off |
| `KillSwitch.KillSwitchManager.GetProviderPolicy` | crates/api/src/kill_switch.rs:133-142 | The policy shuts out exactly the providers directed to be excluded |
| `VenuePrices.BestAsks` | crates/api/src/health_scheduler.rs:269-279 | For every list of offers the map holds exactly the quoted pairs, each with its lowest price |
| `VenuePrices.BestReverseAsks` | crates/api/src/health_scheduler.rs:284-296 | The same with every pair reversed |
| `VenuePrices.BooksAreTransposes` | crates/api/src/health_scheduler.rs:268-296 | The two separately built maps are exact transposes |
| `VenuePrices.VenueInputs` | crates/api/src/health_scheduler.rs:299-330 | Each offer is scored with its pair's lowest ask and the inverse of the reverse pair's lowest ask, or of its own price when nobody quotes the reverse |
| `VenuePrices.InversionTruncates` | crates/api/src/health_scheduler.rs:318-327 | The inverse q of p at scale K satisfies q*p <= K < (q+1)*p |
| `VenuePrices.BidBelowAskIff` | crates/api/src/health_scheduler.rs:318-327 | The inverse is at most the ask exactly when K < (ask+1)*p |
| `VenuePrices.ScoredBidBelowAskIff` | crates/api/src/health_scheduler.rs:299-330 | At any scale, the code's 10^16 included, an offer is scored with a bid at most its ask exactly when K < (ask+1)*rev, or the ask is not negative when there is no positive reverse price |
| `VenuePrices.UncrossedBookScoresUncrossed` | crates/api/src/health_scheduler.rs:299-330 | At any scale a pair quoted on both sides and uncrossed at that scale is scored with a bid at most its ask |
| `VenuePrices.CodeScaleCrosses` | crates/api/src/health_scheduler.rs:324-324 | At the scale 10^16 of the code the bid exceeds the ask even with both prices at one |
| `VenuePrices.OneSidedBookCrosses` | crates/api/src/health_scheduler.rs:311-317 | With no reverse offer the bid is the offer's own inverse and can exceed the ask |
| `VenuePrices.InversionFits` | crates/api/src/health_scheduler.rs:324-324 | The quotient fits the 64-bit integer it is cast to |
| `VenuePrices.NumericIsFloorIff` | crates/api/src/health_scheduler.rs:412-424 | For every string of digits with a point, of any length, the result is the floor of the value times 10^7 exactly when that floor fits 128 bits |
| `VenuePrices.NumericOtherwise` | crates/api/src/health_scheduler.rs:412-424 | Otherwise the product or the sum overflows, or an integer part that does not parse counts as zero and only the fraction is left |
| `VenuePrices.IntegerIsExactIff` | crates/api/src/health_scheduler.rs:421-423 | Without a point the conversion is exact under the same condition |
| `VenuePrices.NumericIsBounded` | crates/api/src/health_scheduler.rs:412-424 | n integer digits give less than 10^(n+7), so up to n = 31 the result is always the floor |
| `VenuePrices.NegativeIsTruncatedIff` | crates/api/src/health_scheduler.rs:412-424 | Where the conversion is right, a negative amount is the negated conversion of its absolute value exactly when its kept fraction is zero |
| `VenuePrices.PlusIsIgnored` | crates/api/src/health_scheduler.rs:412-424 | A plus sign changes nothing |
| `AmountNormalForms.NormalizeMeans` | frontend/lib/amount-input.ts:69-104 | Exactly the strings of digits and separators with a digit and a single decimal mark are accepted, as their digits in order with a point where the rightmost separator was |
| `AmountNormalForms.NormalizeKeepsTheNumber` | frontend/lib/amount-input.ts:69-115 | An accepted normalisation has all digits of the input in order, as many fractional digits as follow its rightmost separator, and is a fixed point |
| `AmountFloors.ParseMeans` | frontend/lib/amount-input.ts:127-163 | What judging a typed amount means, for every input and every number of places: blank, not a decimal, how many digits too many after the rightmost separator, only zeros, or the number its digits say |
| `AmountFloors.ClampKeeps` | frontend/lib/amount-input.ts:168-183 | Clamping keeps the integer part and the allowed leading fractional digits, minus trailing zeros |
| `AmountFloors.TrimKeepsValue` | frontend/lib/amount-input.ts:118-122 | Trimming a normal form keeps its value and normal form and leaves no trailing fractional zero |
| `AmountFloors.FormatMaxIsFloor` | frontend/lib/amount-input.ts:188-196 | The formatted maximum is in normal form and is the exact floor of the balance to the allowed places |
| `AmountFloors.FormatThenParse` | frontend/lib/amount-input.ts:127-163 | Parsing a formatted maximum never reports too much precision for a non-negative number of places, accepts it exactly when the balance holds one unit of the last place, and refuses every one for a negative number of places |
| `AssetIdProofs.AcceptedDenotes` | sdk-js/src/types.ts:362-430 | Every accepted input denotes a well-formed asset whose namespace matches its chain, and its canonical form is that asset's rendering |
| `AssetIdProofs.RenderIsInjective` | sdk-js/src/types.ts:362-430 | Chain, kind and reference are read back from a canonical form in one way only |
| `AssetIdProofs.RenderIsFixed` | sdk-js/src/types.ts:362-430 | Every well-formed asset's rendering is its own canonical form |
| `AssetIdProofs.CanonicalizeIsIdempotent` | sdk-js/src/types.ts:362-430 | Canonicalising twice is canonicalising once |
| `AssetIdProofs.SameFormSameAsset` | sdk-js/src/types.ts:13-19 | Two inputs share a canonical form exactly when they denote the same asset, so never across chains |
| `AssetIdProofs.LegacyAgreesIff` | sdk-js/src/types.ts:420-428 | A legacy CODE:ISSUER agrees with its pubnet form exactly when CODE is not a chain namespace in any case |
| `AssetIdProofs.LegacyMeans` | sdk-js/src/types.ts:424-427 | Outside the namespaces only the first two parts of a legacy identifier matter |
| `AssetIdProofs.LegacyDropsThirdPart` | sdk-js/src/types.ts:424-427 | A third part is dropped by the legacy form and refused by the chain-scoped one |
| `AssetIdProofs.NativeIffCoinType` | sdk-js/src/types.ts:386-394 | On each kind of chain a native asset is accepted under that chain's coin type and no other |
| `AssetIdProofs.WrongChainIsRefused` | sdk-js/src/types.ts:396-418 | Every other kind of asset is refused outside its own kind of chain |
| `AssetIdProofs.BareNativeIsRefused` | sdk-js/src/types.ts:370-378 | A native asset without its coin type is refused, in any case |
| `AssetIdProofs.ChainInAnyCase` | sdk-js/src/types.ts:315-353 | A chain may be spelled in any letter case |
| `AssetIdProofs.Erc20InAnyCase` | sdk-js/src/types.ts:362-416 | A token contract may be spelled in any case and is named in lower case; a malformed one is refused |
| `AssetIdProofs.Base58Shapes` | sdk-js/src/types.ts:291-313 | Token addresses: length and alphabet |
| `AssetIdProofs.HexShapes` | sdk-js/src/types.ts:283-289 | Contracts and genesis hashes: length and alphabet |
| `AssetIdProofs.IssuerShape` | sdk-js/src/types.ts:260-270 | Issuers: length and alphabet |
| `CsvExport.GenerateTransactionsCsv` | frontend/lib/transaction-csv-export.ts:74-114 | The export is the header and one line per transaction for every chunk size of at least one; progress ends at the number of transactions |
| `CsvReader.ExportReadsBack` | frontend/lib/transaction-csv-export.ts:25-32 | A reader following section 2 of RFC 4180 with LF line ends recovers the header and every cell in order exactly when at least one selected column exists |
| `CsvReader.FieldReads` | frontend/lib/transaction-csv-export.ts:25-32 | Reading an escaped value gives the value back, whatever it holds |
| `CsvReader.ActiveInOrder` | frontend/lib/transaction-csv-export.ts:80-83 | The columns are the known ones among the selected keys, in that order |
| `CsvExport.EveryColumnShows` | frontend/lib/transaction-csv-export.ts:34-67 | Exporting every column shows every field of the transaction, in the order of the header |
| `CsvExport.WriteRows` | frontend/lib/transaction-csv-export.ts:93-111 | The chunk loop writes each row once, in order |
| `CsvExport.ChunkRows` | frontend/lib/transaction-csv-export.ts:94-101 | A chunk is its rows, each with a line end |
| `CsvExport.HeaderAlone` | frontend/lib/transaction-csv-export.ts:86-91 | Trimming a header that stands alone removes its line end only |
| `StreamStatus.OneTimeout` | frontend/hooks/useQuoteStreamStatus.ts:148-156 | In every state of every run at most one timeout is pending, and only while the raw status is reconnecting |
| `StreamStatus.ReconnectingWaitsOutTheGrace` | frontend/hooks/useQuoteStreamStatus.ts:148-156 | Whenever reconnecting starts to be shown, the raw status had been reconnecting under the same grace period without a break for at least that period |
| `StreamStatus.OfflineAndRecoveryAreImmediate` | frontend/hooks/useQuoteStreamStatus.ts:129-146 | Offline and connected are shown in the very state that derives them |
| `StreamStatus.HeldStatusIsShown` | frontend/hooks/useQuoteStreamStatus.ts:129-166 | A raw status held for the grace period is the one shown as soon as no timeout is overdue |
| `StreamStatus.OfflineIsShown` | frontend/hooks/useQuoteStreamStatus.ts:61-71 | From every state, offline is shown at once, recovering or not, with no timeout left |
| `StreamStatus.OnlineIsShown` | frontend/hooks/useQuoteStreamStatus.ts:61-71 | So is online and not recovering |
| `StreamStatus.RecoveryWaits` | frontend/hooks/useQuoteStreamStatus.ts:106-156 | Starting to recover keeps what is shown and waits one grace period: the option if positive, else three seconds |
| `StreamStatus.GraceRunsOut` | frontend/hooks/useQuoteStreamStatus.ts:153-156 | A grace period that runs out shows reconnecting |
| `StreamStatus.UnmountClears` | frontend/hooks/useQuoteStreamStatus.ts:158-164 | Unmounting leaves no timeout behind |
| `StreamStatus.QuoteStreamStatus.constructor` | frontend/hooks/useQuoteStreamStatus.ts:118-128 | Mounting shows connected and runs the effect |
| `StreamStatus.QuoteStreamStatus.RunEffect` | frontend/hooks/useQuoteStreamStatus.ts:130-156 | The effect's three branches |
| `StreamStatus.QuoteStreamStatus.OnRender` | frontend/hooks/useQuoteStreamStatus.ts:129-166 | A render with a new raw status or grace period cleans up and runs the effect, any other changes nothing |
| `StreamStatus.QuoteStreamStatus.OnTimeOut` | frontend/hooks/useQuoteStreamStatus.ts:153-156 | A timeout shows reconnecting |
| `StreamStatus.QuoteStreamStatus.ClearPending` | frontend/hooks/useQuoteStreamStatus.ts:132-135 | Clears the held timeout only |

## Left out

- CctpSagaHook.UseCctpSaga.BurnWalletAnswers: the verification retry inside `submitBurnWithVerificationRetry` is one submit, because it resends one hash to one transfer.
- CctpSagaHook.UseCctpSaga.ReattestAnswers: the cooldown and the second status call after a 409 are folded into the reported status.
- CctpSagaHook.UseCctpSaga.RequestQuote: building the request body and checking wallet bindings are one boolean.
- SwapClient.Request: headers are not compared across retries, because the network-error branch drops the extra ones.
- CctpSagaHook.UseCctpSaga.Reattest: the cooldown is one boolean.
- CctpSagaHook.UseCctpSaga.InputsChange: one string stands for the quote inputs and for the recovery inputs compared on resume.
- The saga's error texts, poll handle, idempotency key, wallet-role assessment, version-1 records and JSON validation.
- The saga under answers that never come, and completion being final: a late auto-reconcile can restore a session after completion.
- Socket events to listeners, message parsing, generated subscription ids (two made in one millisecond for one pair are equal) and the close handshake's state in between.
- Transaction history, notifications and telemetry of the lifecycle hook.
- `StellarRouteClient` beyond prepare, submit and execute; parsing of error bodies is given as its result.
- Unicode case mapping in `normalize_asset` (a parameter) and the background clean-up task of the ledger.
- Metrics of the kill switch, and its JSON form in Redis.
- What an overflow in `numeric_to_e7` does (a panic or a wrapped value, by build), and strings cut inside a multi-byte character.
- AMM pools, depth and scoring in the health scheduler.
- Doubles in the amount parser: very long numerals, where `Number` is infinite or rounds to zero.
- Invalid time stamps in the CSV export; printing a date is a parameter.
- React's scheduling between a render and its effect; mode selection of the stream status.
- Everything else in the repository: routing, circuit breaker, contracts, indexer, user interface.
