# A verified model of the automaton factory

The factory is a canister on the Internet Computer that sells automata. A buyer opens a spawn
session and pays into an escrow contract on Base; the factory polls the chain, installs a canister,
releases the escrow with a threshold-signed transaction and hands control over; or it refunds. This
project models the logic of that factory, and of two neighbours of it, in Dafny, and proves what has
to hold of every run.

| files | what they model |
|---|---|
| `Factory`, `Scheduler`, `Escrow`, `FactoryCanister` | the session state machine, the job scheduler, polling and refund bookkeeping; `FactoryCanister` is the imperative form, method by method, each proved equal to the function that specifies it |
| `Deposits`, `Evidence`, `Ledger`, `Order` | deposit logs, their grouping, and merging a scan into a claim |
| `Invariants`, `Polling`, `FactoryRuns`, `Coverage`, `CatchUp`, `Frozen`, `Bystanders`, `Settings` | what every step and every run of the factory keeps |
| `Events`, `Settlement`, `Writes`, `JobTimes`, `SpawnJobs`, `SpawnRuns`, `FirstPayment` | what the factory's operations decide, write and schedule, told without the functions that compute it |
| `Refund`, `RefundRuns`, `RefundBytes`, `RefundReuse`, `RefundTidy`, `RefundSecure`, `RefundExact`, `Confirmations`, `RefundConfirmed`, `RefundOwn`, `RefundCourse`, `RefundStumbles` | refund commands as they interleave between awaits, with leases, takeovers and superseded continuations |
| `Release`, `ReleaseRuns`, `ReleaseSteps`, `ReleasePhases`, `ReleaseSafety`, `ReleaseLocal`, `ReleaseReceipts`, `ReleaseSends`, `ReleaseTwins`, `ReleaseFinish`, `ReleaseReach`, `ReleaseConfirmed`, `ReleaseCourse`, `ReleaseStumbles` | spawn executions as they interleave between awaits |
| `Reproduction` | admission of an automaton's own children |
| `Persistence` | the stable storage, with its delta writes and three schemas |
| `Hex`, `Rlp`, `RlpEncoder`, `Evm`, `Calldata`, `RefundDraft` | the transactions the factory signs, down to bytes |
| `Sanitize` | redaction and framing of untrusted text in an automaton |
| `Bits`, `Crc32`, `CanisterId` | textual canister ids in the indexer |
| `RateLimiter` | the per-address limiter of the RPC gateway |
| `Options`, `Limits`, `Sequences` | what the others share |

Code that the source runs as loops over mutable state is a method with invariants, proved against a
function or a property; the two asynchronous protocols are state machines over values whose steps are
the messages between two awaits. Every answer of the network, every clock reading and every
interleaving is an input of a step, so a statement about runs covers all of them.

## Model

| member | source | states |
|---|---|---|
| Sanitize.NothingForbiddenSurvives | components/ic-automaton/src/sanitize.rs:90-154 | for every text, the detector finds no listed phrase in the redacted text, including one formed across a marker |
| Sanitize.RedactionIsIdempotent | components/ic-automaton/src/sanitize.rs:101-154 | redacting a redacted text changes nothing |
| Sanitize.FlagsExactly | components/ic-automaton/src/sanitize.rs:8-99 | a text is flagged if and only if one of the sixteen phrases occurs in it in any mix of cases |
| Sanitize.ChangesExactlyFlagged | components/ic-automaton/src/sanitize.rs:90-154 | redaction changes a text if and only if the detector flags it |
| Sanitize.CollectRanges | components/ic-automaton/src/sanitize.rs:108-117 | the loop that restarts one past each hit finds every occurrence of every phrase, overlapping ones too, and nothing else |
| Sanitize.MergeRanges | components/ic-automaton/src/sanitize.rs:123-136 | coalescing sorted ranges in place covers the same positions with separated ranges |
| Sanitize.Redact | components/ic-automaton/src/sanitize.rs:101-154 | search, sort, merge and copy compute the reference definition, which replaces each maximal covered run by one marker |
| Sanitize.RedactForbiddenPhrases | components/ic-automaton/src/sanitize.rs:8-25 | the same for the fixed list, whose output the detector passes |
| Sanitize.FrameUntrustedContent | components/ic-automaton/src/sanitize.rs:160-170 | the method builds the frame that the next row is about, around the redacted content |
| Sanitize.FramePayloadRecoveredExactly | components/ic-automaton/src/sanitize.rs:160-189 | extracting a frame gives back its redacted payload if and only if the source name holds no newline, whatever markers the payload holds |
| Crc32.BuildCrc32Table | apps/indexer/src/config.ts:155-169 | every entry of the table is eight steps of the bit-serial division |
| Crc32.ComputeCrc32 | apps/indexer/src/config.ts:171-179 | the table-driven loop computes the CRC of section 8 of RFC 1952 bit by bit, for every byte string |
| CanisterId.DecodeBase32 | apps/indexer/src/config.ts:181-207 | the loop over a 32-bit buffer that is shifted and never masked computes the decoding defined on the whole list of bits |
| CanisterId.DecodeInvertsEncode | apps/indexer/src/config.ts:181-207 | the decoder inverts unpadded base32 of every byte string |
| CanisterId.ExtraZeroDigit | apps/indexer/src/config.ts:200-206 | a further zero digit is ignored exactly when fewer than three bits are left over |
| CanisterId.PrintedExactly | apps/indexer/src/config.ts:181-233 | an accepted text is its principal's printed form if and only if fewer than five bits are left over in it |
| CanisterId.SecondTextExactly | apps/indexer/src/config.ts:181-233 | a principal has an accepted text other than its printed form if and only if its bytes with checksum, eight bits each, do not leave one or two bits over groups of five; principals of ten bytes have none |
| CanisterId.IsValidCanisterId | apps/indexer/src/config.ts:209-233 | accepts a text if and only if it is well grouped and its bytes are some byte string behind its own checksum |
| CanisterId.PrintedIdIsValid | apps/indexer/src/config.ts:209-233 | every principal's printed form is accepted and decodes to that principal |
| CanisterId.ManagementCanister | apps/indexer/src/config.ts:155-233 | the empty principal is printed as the management canister's name: preset and complement of the checksum cancel |
| CanisterId.PrintedIdIsInjective | apps/indexer/src/config.ts:209-233 | different principals print differently |
| RateLimiter.IpRateLimiter.PruneExpired | apps/rpc-gateway/src/policy.ts:123-135 | at most once per window, exactly the dead entries are deleted |
| RateLimiter.IpRateLimiter.Check | apps/rpc-gateway/src/policy.ts:137-178 | for any clock, the stored entries, the next pruning and the answer are those of one request against what pruning left; as long as the clock has not gone back, the answer is that of a limiter that never deletes an entry |
| RateLimiter.DeletedEntryShows | apps/rpc-gateway/src/policy.ts:123-178 | an answer differs from that of a limiter that never deletes if and only if the address's entry was deleted and the clock has gone back to where it is live |
| RateLimiter.RefusedExactlyWhenFull | apps/rpc-gateway/src/policy.ts:137-178 | a request is refused if and only if a live window of its address has already admitted the limit |
| RateLimiter.AnswerTells | apps/rpc-gateway/src/policy.ts:137-178 | what remains and what was admitted in the window add up to the limit; a refusal says how long the window still lasts, and no window lasts longer than it should |
| RateLimiter.IntervalAdmitsLessThanTwice | apps/rpc-gateway/src/policy.ts:114-178 | no interval as long as a window admits more than twice the limit less one from one address |
| RateLimiter.TheBoundIsReached | apps/rpc-gateway/src/policy.ts:114-178 | for every limit and every window of at least two milliseconds, a trace that admits exactly twice the limit less one in such an interval |
| RateLimiter.StaysWithinExactly | apps/rpc-gateway/src/policy.ts:114-178 | whatever follows, the interval from a time on admits at most the limit if and only if no earlier window of the address reaches into it with room left |
| Hex.ReadingInvertsPrinting | backend/factory/src/evm.rs:165-197 | decoding the printed form of any bytes gives the bytes |
| Hex.PrintingInvertsReading | backend/factory/src/evm.rs:165-197 | text that reads is, but for its prefix and the case of its letters, what would be printed |
| Hex.HexEncodePrefixed | backend/factory/src/types.rs:1567-1578 | the loop prints what the round trips read |
| Hex.DecodeHex | backend/factory/src/evm.rs:175-197 | the loop computes the decoding that the round trips are about |
| Rlp.DecodeInvertsEncode | backend/factory/src/evm.rs:280-328 | an independent strict decoder reads any encoded item back, whatever follows it |
| Rlp.EncodeInvertsDecode | backend/factory/src/evm.rs:280-328 | whatever that decoder accepts is the encoding of what it read: encodings are canonical |
| Rlp.EncodingIsPrefixFree | backend/factory/src/evm.rs:280-328 | no encoding is a proper prefix of another, and an encoding determines its item |
| RlpEncoder.RlpEncodeList | backend/factory/src/evm.rs:320-328 | appending to a growing buffer computes the encoding of the list |
| RlpEncoder.RlpEncodeU64 | backend/factory/src/evm.rs:306-318 | an integer is encoded as its shortest big-endian string |
| Evm.BuildSigningPayload | backend/factory/src/evm.rs:730-765 | the buffer is the type-2 envelope of section "Specification" of EIP-1559 over the transaction |
| Evm.BuildSignedRawTransaction | backend/factory/src/evm.rs:767-793 | the buffer is the type-2 envelope over the signed fields |
| Evm.SigningPayloadRoundTrip | backend/factory/src/evm.rs:730-765 | an independent reader recovers every field of every transaction from the bytes that are signed |
| Evm.SigningPayloadIsExact | backend/factory/src/evm.rs:730-765 | only the signing payload of a transaction reads as that transaction |
| Evm.SignedRawRoundTrip | backend/factory/src/evm.rs:767-793 | the broadcast bytes hold exactly the signed fields, the parity, and both halves of the signature as full 32-byte strings |
| Evm.SignedRawIsExact | backend/factory/src/evm.rs:767-793 | only its signed form reads as a transaction under a signature |
| Calldata.EncodeReproductionReleaseCalldata | backend/factory/src/evm.rs:354-386 | the appended words are the call that the round trip below is about, and the first address that does not read stops it with that address's error |
| Calldata.EncodeRefundCalldata | backend/factory/src/evm.rs:345-352 | the appended words are the call that the round trip below is about, or the error of the claim that does not read |
| Calldata.EncodeReleaseCalldata | backend/factory/src/evm.rs:330-343 | the same for a plain release, claim before recipient |
| Calldata.ReproductionCallRoundTrip | backend/factory/src/evm.rs:354-386 | a contract that picks its function by the first four bytes of the hashed signature, written out as bytes, and wants twelve zeros before an address, runs the reproduction's and reads the claim, the three recipients and the three amounts that were meant; the call can be encoded if and only if every identifier reads, and the first that does not is the error |
| Calldata.ReleaseCallRoundTrip | backend/factory/src/evm.rs:330-343 | the same contract runs the plain release and reads its claim and its recipient |
| Calldata.RefundCallRoundTrip | backend/factory/src/evm.rs:345-352 | the same contract runs the refund and reads its claim |
| RefundDraft.ValidatesExactly | backend/factory/src/evm.rs:619-657 | a stored draft validates if and only if it names the session and its signing hash is that of some bytes that read as a transaction with the record's own chain, nonce, both fees, gas, escrow and calldata, which calls the refund of the record's claim; the configuration it gives is the record's own |
| RefundDraft.SameHashSameTransaction | backend/factory/src/evm.rs:599-657 | two valid drafts with one signing hash stand for one transaction, or two byte strings collide under the hash |
| RefundDraft.DroppedBytesAreRebuilt | backend/factory/src/evm.rs:659-714 | signed bytes dropped from a record are rebuilt bit for bit from what is left |
| RefundDraft.RebuiltBytesAreTheRecords | backend/factory/src/evm.rs:659-728 | bytes are rebuilt if and only if they read as a transaction with the record's own fields under the record's own signature and hash; they pass the checks before broadcast |
| RefundDraft.SignedDraftPassesTheChecks | backend/factory/src/evm.rs:599-728 | a draft shows what was asked for and has the hash of bytes that read as its own transaction; once signed, its bytes read as that transaction under the signature that was given, and pass the checks before broadcast |
| Persistence.SyncCollection | backend/factory/src/state.rs:531-551 | the two passes over a table leave exactly the specified delta |
| Persistence.SyncAuditLog | backend/factory/src/state.rs:553-574 | the same for the table that holds a session's trail in one record |
| Persistence.DeltaIsReplacement | backend/factory/src/state.rs:469-520 | writing only the difference is writing everything: what is loaded next is what the writer left, from a current or an older schema, secrets untouched |
| Persistence.OldCellsLoad | backend/factory/src/state.rs:276-437 | exactly schemas 4 and 5 load; what an old cell lacks is read as nothing, and a missing depth as one block on the local chain and twelve elsewhere |
| Persistence.RunsAgree | backend/factory/src/state.rs:441-520 | any run of writers persisted as deltas agrees with the run in memory |
| Persistence.FactoryStableStorage.Mutate | backend/factory/src/state.rs:441-520 | after a call the loaded state is the writer's, also when the writer answers with an error; without a supported schema nothing changes |
| Deposits.AmountsByClaim | backend/factory/src/escrow.rs:86-110 | grouping succeeds if and only if every amount reads, the hashes of a block agree and every total fits in 128 bits, and it then holds exactly the claims, blocks and totals logged |
| Deposits.GroupingIgnoresOrder | backend/factory/src/escrow.rs:86-110 | success and every total are the same in whatever order the logs arrive |
| Evidence.MergedClaimEvidence | backend/factory/src/escrow.rs:112-163 | the loop computes the specified merge and fails exactly when that is undefined: a known block with another hash, or a sum of 128 bits |
| Ledger.AnyRunOfScans | backend/factory/src/escrow.rs:112-163 | repeated, overlapping and out-of-order windows leave the exact ledger of their union |
| Ledger.TwiceIsOnce | backend/factory/src/escrow.rs:112-163 | two windows in turn leave the ledger that one scan of both would leave |
| Ledger.LedgerIsDetermined | backend/factory/src/escrow.rs:112-163 | the scanned blocks determine proofs, amounts and sum; hashes up to letter case |
| Factory.MovesAreExactlyTheLegalOnes | backend/factory/src/session_transitions.rs:95-232 | an event moves a session if and only if the move is in the table of legal moves and money and clock permit it; only a retry resets the deadline |
| Events.EventExactly | backend/factory/src/session_transitions.rs:66-232 | an event moves a stored session if and only if a legal move is permitted; then state, deadline, flags, the claim's flag and one line of the trail change as the move says, the stored trail is its last hundred lines, and nothing else changes; an event that moves nothing is refused with the source's error |
| Invariants.EventKeepsSessions | backend/factory/src/session_transitions.rs:95-232 | no event, legal or refused, breaks money safety, the agreement of session and claim, or the audit trail |
| Scheduler.LeasesTheLeast | backend/factory/src/scheduler.rs:241-271 | leasing takes exactly the least due jobs by time and name, up to the limit |
| JobTimes.FailuresBackOff | backend/factory/src/scheduler.rs:180-354 | after a success, failures in a row are answered by waits of 5, 10, 20, 40, 80 and 160 seconds and then of five minutes, counted and with the lease over |
| JobTimes.JobsEnd | backend/factory/src/scheduler.rs:277-460 | a success, a failed poll and a failed spawn end one job alone, told by its name, kind and cause: when it is due again, its status and its counters |
| JobTimes.RunningIsListed | backend/factory/src/scheduler.rs:95-105 | after leasing or finishing, the list of running jobs names exactly those under a lease, in order |
| JobTimes.JobsRunSoon | backend/factory/src/scheduler.rs:180-354 | in every run under a clock that does not go back, the poll is due within five minutes as long as a session waits, and so is every other job that is due at all |
| Scheduler.FailureKeepsPolls | backend/factory/src/scheduler.rs:311-378 | no classified failure of the poll loses the poll while a session waits for money |
| Escrow.PlanExactly | backend/factory/src/escrow.rs:602-657 | there is a window if and only if a session waits and the chain is as long as the depth; it names every waiting session's claim, starts after the cursor furthest behind, or after the last scan, or ten thousand blocks back, and ends ten thousand blocks on or at the last block that is deep enough |
| Escrow.PlanIsSafe | backend/factory/src/escrow.rs:602-657 | a planned window has at most ten thousand blocks, lies under the confirmation depth, and starts no later than the first block any waiting session lacks |
| Polling.PollKeeps | backend/factory/src/escrow.rs:165-318 | a poll keeps every invariant whatever the node answers, including one that stops half-way |
| Settlement.PollSettles | backend/factory/src/escrow.rs:65-318 | after a poll that goes through, every waiting session and its claim are paid if and only if the claim reaches the price and the node, if it was asked, has every block of the evidence under the same hash up to case; a dispute makes it partial; paid in time it is ready with its spawn job due, past its deadline it has expired; the claim shows its last proof and what was added. A poll that stops half-way has done so or left the session |
| Writes.PollMovesTheScan | backend/factory/src/escrow.rs:165-318 | logs that group move the scan position even if the poll then stops; a poll that goes through leaves the poll job due while a session waits and idle otherwise |
| FactoryRuns.ReachableIsSafe | backend/factory/src/session_transitions.rs:66-232 | in every state a run reaches: nothing is spawned or released unpaid, a refund is of a failed or expired session, session and claim agree, the evidence adds up to what was paid, trails are linked, and a poll is scheduled while one is needed |
| FactoryRuns.RunForward | backend/factory/src/session_transitions.rs:95-232 | over every run Complete, Expired and Refunded are final, payment only rises, and claim and price never change |
| FactoryRuns.NeverCompleteAndRefunded | backend/factory/src/escrow.rs:795-860 | no run both completes and refunds a session, in either order |
| FactoryRuns.LeasesAreAMinuteApart | backend/factory/src/scheduler.rs:82-271 | between two leases of a job that did not finish lies at least a minute, whatever else runs meanwhile |
| Coverage.LedgerOverRuns | backend/factory/src/escrow.rs:165-318 | over every run against one chain, what a claim was paid is the sum of its deposits in the blocks scanned for it, and no block between the session's first and present cursor was left out |
| CatchUp.PollsCatchUp | backend/factory/src/escrow.rs:602-657 | with a fixed head, as many successful polls as the gap has ten-thousands bring every waiting session to the safe head |
| CatchUp.HonestPollSucceeds | backend/factory/src/escrow.rs:165-318 | while amounts fit, hashes agree and the node answers, a poll succeeds |
| FirstPayment.DepositIsDetected | backend/factory/src/escrow.rs:165-318 | from the first state, for every price, depth and hash: a session whose price was deposited is paid and ready to be spawned after one poll, whether or not the node is asked for the block again, and the next lease takes its spawn job |
| SpawnJobs.RetryIsDue | backend/factory/src/retry.rs:29-48 | after a retry that is not refused the session is detected and its spawn job is under a lease or due now |
| SpawnJobs.FailureIsDue | backend/factory/src/retry.rs:6-27 | after a failure in time the spawn job is under a lease or due now; after one past the deadline no job changes |
| SpawnJobs.DueIsLeased | backend/factory/src/scheduler.rs:241-271 | a lease that reaches the due jobs leaves a due spawn job under a lease for a minute |
| SpawnRuns.SpawnsAreKept | backend/factory/src/scheduler.rs:222-354 | over every run in which the job of a session neither succeeds nor gives up, the session has its job on the schedule whenever it can be spawned |
| Writes.CreatedExactly | backend/factory/src/api/public.rs:375-491 | a new session is refused if and only if the factory is paused or the price below the minimum; otherwise its deadline, first cursor, empty claim, first line of audit and due poll are as promised, and no other session changes |
| Writes.RefundChecks | backend/factory/src/escrow.rs:717-762 | a request for a refund is answered by the time of the one already made, is let through exactly while a failed or expired session holds money, and otherwise names the reason |
| Writes.RefundWrites | backend/factory/src/escrow.rs:717-860 | a refund is recorded if and only if it is open and the canister, if there is one, is known; session, claim, trail and the canister's runtime change as promised, and nothing else does; otherwise nothing changes and the error is the source's |
| Writes.CanistersAreKnown | backend/factory/src/spawn.rs:1616-2060 | in every reachable state a session's canister has a runtime |
| Frozen.StepKeepsRefund | backend/factory/src/escrow.rs:795-860 | no step but the refund's own makes a refund or changes one |
| FactoryCanister.Canister.ApplySessionEvent | backend/factory/src/session_transitions.rs:95-232 | the method leaves exactly the specified state and error |
| FactoryCanister.Canister.SyncPaymentPollJob | backend/factory/src/scheduler.rs:188-214 | the method leaves exactly the specified jobs |
| FactoryCanister.Canister.LeaseDueJobs | backend/factory/src/scheduler.rs:241-271 | the loop over sorted due jobs leaves exactly the specified state and returns the leased jobs |
| FactoryCanister.Canister.FinalizeJobFailure | backend/factory/src/scheduler.rs:311-354 | the method leaves exactly the specified job |
| FactoryCanister.Canister.FinalizeJobSuccess | backend/factory/src/scheduler.rs:277-309 | the method leaves exactly the specified job |
| FactoryCanister.Canister.MarkSessionFailed | backend/factory/src/retry.rs:6-27 | the method leaves exactly the state and error that SpawnJobs.FailureIsDue is about |
| FactoryCanister.Canister.RetrySpawnSession | backend/factory/src/retry.rs:29-48 | the method leaves exactly the state and error that SpawnJobs.RetryIsDue is about |
| FactoryCanister.Canister.NextPaymentScanPlan | backend/factory/src/escrow.rs:602-657 | the loop over sessions computes the specified plan |
| FactoryCanister.Canister.ReconcileEscrowPayments | backend/factory/src/escrow.rs:165-318 | the loop leaves exactly the state and error that Settlement.PollSettles is about, also where it stops half-way |
| FactoryCanister.Canister.CreateSession | backend/factory/src/api/public.rs:375-491 | the method leaves exactly the specified state and error |
| FactoryCanister.Canister.FinalizeEscrowRefund | backend/factory/src/escrow.rs:795-860 | the method leaves exactly the specified state and error |
| RefundRuns.DraftsAreWrittenOnce | backend/factory/src/escrow.rs:1034-1220 | over every interleaving of commands, takeovers and superseded continuations a refund's transaction, once drafted, never changes, and no other draft or release has its nonce, short of the last one |
| Confirmations.ConfirmsExactly | backend/factory/src/evm.rs:532-597 | an answer confirms if and only if its receipt is successful, its block's hash is the canonical one up to case, and the blocks on it, its own included, are at least the depth and fit in 64 bits; without a receipt, or with one that is only too shallow, it is no error |
| RefundConfirmed.RefundsAreConfirmed | backend/factory/src/evm.rs:466-597 | in every run a session is refunded if and only if some answer told a call that still held its lease, while the refund was open, of a successful, canonical receipt as deep as the factory asks; the record on file is then, for ever, the one with that receipt |
| RefundRuns.RefundedHasReceipt | backend/factory/src/escrow.rs:795-860 | in every reachable state a refunded session has a successful receipt and a hash on record, and no lease |
| RefundRuns.ReplayIsStable | backend/factory/src/escrow.rs:717-762 | asking again, after any run, gives the time and hash of the refund itself |
| RefundTidy.EveryRunIsTidy | backend/factory/src/evm.rs:965-1204 | in every reachable state stored bytes pass the checks before broadcast, stored drafts validate, and a lease belongs to a call in flight |
| RefundOwn.StoredBytesAreOwn | backend/factory/src/evm.rs:659-1344 | in every run from before the first refund, the bytes stored with a refund, and the bytes any call is sending, read as a transaction with the record's own chain, nonce, fees, gas, escrow and calldata under the record's own signature and hash |
| RefundCourse.RefundSucceeds | backend/factory/src/escrow.rs:1034-1260 | for every session whose money is in and whose time is over, under any replies of a willing node, six messages record the refund: under the larger of the cursor and the pending nonce, with the fees and escrow of the first message, signed, sent and confirmed as the replies say; no lease is left and the cursor is past the nonce |
| RefundStumbles.LeaseExcludes | backend/factory/src/api/public.rs:710-832 | until its lease has run out, a command in flight lets no other command change anything |
| RefundStumbles.LeaseIsAMinute | backend/factory/src/api/public.rs:710-832 | a command that goes on holds the lease for a minute under the next generation, with the escrow, fees and depth set now |
| RefundStumbles.GoesOnFromTheRecord | backend/factory/src/escrow.rs:1034-1220 | what a command does first is told by the record: confirm a hash on record, ask for a nonce if nothing was signed, send signed bytes, or rebuild and send dropped ones |
| RefundStumbles.StopsLeave | backend/factory/src/evm.rs:996-1344 | a missing key, too few cycles, a broken signature, another hash or a receipt that cannot stand ends the command; only one that signed or was to sign the transaction leaves its record with an error |
| RefundStumbles.TooEarly | backend/factory/src/evm.rs:532-597 | without a receipt, or with one that is not deep enough yet, that is stored and the command ends |
| RefundSecure.EveryRunIsSecure | backend/factory/src/api/public.rs:710-832 | from a state in which no call threatens them, every run keeps the stored bytes, whatever generations it hands out |
| RefundExact.BytesAreKeptExactly | backend/factory/src/api/public.rs:710-832 | every run keeps the stored signed bytes of a session if and only if no call in flight for it works without those bytes and has the lease, or may still be given it because the session is neither complete nor refunded; the same for the runs whose clock does not go back, from any time on |
| RefundExact.ReachableBytesAreKeptExactly | backend/factory/src/api/public.rs:710-832 | the same equivalence in every state a run reaches from before the first refund |
| RefundBytes.BytesAreWrittenOnce | backend/factory/src/escrow.rs:1034-1260 | over runs in which no command gets the generation of a call in flight, the bytes and hashes of all sessions are written once |
| RefundReuse.ReuseLosesBytes | backend/factory/src/api/public.rs:710-832 | from every state in which a refund can begin, a run of nine messages that stores signed bytes and loses them |
| RefundReuse.StartIsReady | backend/factory/src/api/public.rs:710-832 | such states exist: before any refund, for every refundable session with well-formed claim and escrow addresses |
| ReleaseSafety.StepKeeps | backend/factory/src/spawn.rs:1449-2274 | every message of every execution and every other step of the factory keeps the invariants of releases and every recorded hash |
| ReleaseSafety.ReleasedOnce | backend/factory/src/spawn.rs:1616-2274 | in every run, a release hash once recorded never changes, and nothing is sent for that session again, however many executions are in flight |
| ReleaseConfirmed.ConfirmedExactly | backend/factory/src/evm.rs:532-597 | over every run a transaction counts as confirmed for a session if and only if some answer told an execution whose draft was still the session's of a successful, canonical receipt as deep as the factory asks |
| ReleaseConfirmed.CompleteIsConfirmed | backend/factory/src/spawn.rs:1388-1446 | in every run, a complete session carries the recorded hash, some message of the run reported that transaction successful, canonical and as deep as asked, and a canister made for the session is registered with controllers that were verified |
| ReleaseCourse.ReleaseSucceeds | backend/factory/src/spawn.rs:1616-2275 | from every paid session that is ready, an execution that nothing stops completes it in eight messages with one transaction, on record with its receipt, its canister and the controllers that were verified |
| ReleaseCourse.DepositBecomesAutomaton | backend/factory/src/spawn.rs:1616-2275 | a run from the first state that creates a session, detects its deposit, spawns, releases and completes it, for every price, depth, hash and set of willing answers |
| ReleaseStumbles.BeginsExactly | backend/factory/src/spawn.rs:1616-1700 | which sessions an execution begins for, resumes or fails, and that it leaves all others |
| ReleaseStumbles.GuardsExactly | backend/factory/src/spawn.rs:873-950 | an execution may go on if and only if its session is stored and its record is of the draft the execution began with: the eleven planned fields agree, or there is none |
| ReleaseStumbles.StopsLeave | backend/factory/src/spawn.rs:1449-2275 | what each answer that stops an execution leaves of the record, and which ones fail the session: an own transaction's only if it was reverted, a recorded one's if it was reverted or its block left the chain |
| ReleaseSends.AtMostOneSend | backend/factory/src/spawn.rs:1616-2274 | in every run that does not retry a session, at most one transaction is sent for it |
| ReleaseReach.TwoSends | backend/factory/src/retry.rs:29-48 | a run from the first state that sends two transactions for one session: the answer to the first is lost, and the session is retried |
| ReleaseReach.ConfirmingIsReachable | backend/factory/src/spawn.rs:1616-2274 | for every price, depth and set of answers, a run from the first state to a paid session whose release is on record and unconfirmed, with no execution in flight |
| ReleaseReceipts.ReceiptIsKeptExactly | backend/factory/src/spawn.rs:1449-2274 | every run keeps the successful receipt of a complete session if and only if no execution in flight for it that passes its guard has yet to ask for the receipt |
| ReleaseTwins.ReceiptCanBeForgotten | backend/factory/src/spawn.rs:1449-1530 | a run of five messages from such a session after which it is complete and has lost its stored receipt |
| ReleaseTwins.ReleasedCanBeRefundable | backend/factory/src/spawn.rs:1388-1446 | a run of four messages after which a session's release is confirmed and registered while the session is expired and may be refunded |
| ReleaseFinish.ReleasedCanBeFailed | backend/factory/src/spawn.rs:1449-1613 | a run after which the release is registered while the session is failed and may be refunded: a twin was told of a reverted transaction |
| ReleaseFinish.CompletesExactly | backend/factory/src/spawn.rs:1388-1446 | in every reachable state, by whichever of its three callers a confirmed release is finished: hash and registry are written, the session completes if and only if it is still being released or already complete, and it may be refunded afterwards if and only if it had expired or failed and was not refunded yet |
| Reproduction.ReproductionsAreSpaced | backend/factory/src/reproduction.rs:110-166 | in every run, two reproductions of one parent whose sessions have not expired were created at least three days apart |
| Reproduction.FewReproductions | backend/factory/src/reproduction.rs:110-166 | a span of time holds at most one such reproduction of a parent, and one more for every three days |
| Reproduction.AdmittedExactly | backend/factory/src/reproduction.rs:75-192 | a reproduction is admitted if and only if what was verified holds, the parent is registered, alive, of a stored session and seven days old, each of its reproductions that has not expired is three days old, and price and reserves are covered |
| Reproduction.AdmittedIsBorn | backend/factory/src/reproduction.rs:168-260 | an admitted reproduction is a new session at its price, remembered as its parent's at this time, unless the factory is paused; any other changes nothing |
| Reproduction.ReportedIsAdmitted | backend/factory/src/reproduction.rs:31-73 | the reported eligibility is what admission checks of age and cooldown, except exactly at the last 64-bit millisecond with a deadline past it |
| Reproduction.AdmittedKeepsReserves | backend/factory/src/reproduction.rs:168-192 | a parent that pays keeps its three reserves and the child its endowment, short of saturated sums, which are named |
| Reproduction.ReleaseFitsThePayment | backend/factory/src/spawn.rs:46-70 | a reproduction's release pays out at most what came in; the creation cost and 85 per cent of the fee stay, and of the fee a tenth goes to the parent and a twentieth to the progenitor, short of rounding and saturation; the child gets the rest exactly |

## Findings

Properties that one would expect and that do not hold, each with the input that shows it and the exact
condition under which it does.

- **Signed refund bytes can be lost.** A lease is removed when its command returns
  (`backend/factory/src/api/public.rs:821-831`), and the next command starts again at generation 1
  (`backend/factory/src/api/public.rs:714-728`). A call that fell asleep under generation 1 then passes
  the guard and stores its unsigned draft over the signed record: `RefundReuse.ReuseLosesBytes` is such
  a run. `RefundExact.BytesAreKeptExactly` says exactly when it can happen. The loss is of bytes only:
  the transaction itself never changes (`RefundRuns.DraftsAreWrittenOnce`), so what is signed next is
  the same transaction under the same nonce.
- **A complete session can lose its stored receipt.** Two executions may confirm one recorded release;
  the draft guard does not look at receipts, so the one that is answered late, by a node that does not
  see the receipt, stores a record without one (`backend/factory/src/spawn.rs:1493-1512`):
  `ReleaseTwins.ReceiptCanBeForgotten`, from a state that `ReleaseReach.ConfirmingIsReachable` reaches.
  It is kept for ever exactly when no execution in flight passes its guard and has yet to ask
  (`ReleaseReceipts.ReceiptIsKeptExactly`). The hash, and that it was confirmed, are never lost
  (`ReleaseSafety.ReleasedOnce`, `ReleaseConfirmed.CompleteIsConfirmed`).
- **A released session can stay expired or failed and be refunded.** The registry, the hash and the record
  are written before the event that completes the session (`backend/factory/src/spawn.rs:1388-1446`), and a
  refused event undoes nothing. The deadline may pass while the controllers are being verified
  (`ReleaseTwins.ReleasedCanBeRefundable`), or a second execution may be told that the transaction was
  reverted (`ReleaseFinish.ReleasedCanBeFailed`). `ReleaseFinish.CompletesExactly` says when the session
  completes and when it may be refunded. Whether the escrow then pays twice is up to the contract, which is
  not part of this model.
- **A session can be sent two releases.** If the answer to a broadcast is lost, no hash is recorded, and a
  retry sends again under another nonce: `ReleaseReach.TwoSends`. It takes both: without a retry at most one
  is sent (`ReleaseSends.AtMostOneSend`), and after a hash is recorded none is
  (`ReleaseSafety.ReleasedOnce`).
- **A frame can lose its payload.** With a newline in the source name, extraction never gives the
  payload back (`Sanitize.NewlineInSourceLosesThePayload`), and that is the only case
  (`Sanitize.FramePayloadRecoveredExactly`).
- **Textual canister ids are not unique.** The base32 decoder ignores a trailing zero digit exactly
  when fewer than three bits are left over (`CanisterId.ExtraZeroDigit`), so the validator accepts, for some
  principals, a second text: the printed form with one digit more. `CanisterId.SecondTextExactly` says for
  which principals, and that the ten-byte ids of canisters are not among them; `CanisterId.PrintedExactly`
  says which accepted texts are printed forms.
- **A window of the rate limiter is not a bound on every interval.** An interval as long as the window
  can admit twice the limit less one (`RateLimiter.TheBoundIsReached`) and no more
  (`RateLimiter.IntervalAdmitsLessThanTwice`). It stays within the limit, whatever follows, exactly when no
  earlier window reaches into it with room left (`RateLimiter.StaysWithinExactly`).
- **Deleting entries shows when the clock goes back.** A deleted entry that is live again gives its address a
  new window; `RateLimiter.DeletedEntryShows` gives the condition.
- **Reported and admitted eligibility differ** at the last 64-bit millisecond, because one saturates a
  deadline and the other an age (`Reproduction.ReportedIsAdmitted`).

## Left out

- CatchUp.PollsCatchUp: counts polls that succeed under one fixed head; how often polls run and how fast the chain grows is not modelled.
- Coverage.LedgerOverRuns: assumes that all answers come from one chain; reorganisations inside the scanned depth are not modelled, nor the provider's own limits on a log query.
- RefundBytes.BytesAreWrittenOnce: one-way; the exact condition for one session is RefundExact.BytesAreKeptExactly.
- RefundDraft.SameHashSameTransaction: leaves open that the hash function collides; Keccak-256 is an arbitrary function to 32 bytes.
- JobTimes.FailuresBackOff: counters are taken below their 32-bit limit, as in JobTimes.JobsEnd.
- SpawnRuns.SpawnsAreKept: a retry is taken together with its job, as the program makes it; when a leased job runs is up to the host.
- RateLimiter.StaysWithinExactly: like the two bounds before it, for a limit of at least one; a limit of zero admits what a limit of one does.
- ReleaseConfirmed.CompleteIsConfirmed: the registry entry is that of a canister made for the session, not necessarily the one the session names last; what the registry says about parents and children is not modelled.
- Reproduction.ReproductionsAreSpaced: the age of the parent is checked at admission only; the text checks of genesis, inheritance and constitution are Boolean inputs.
- ReleaseStumbles.GuardsExactly: compares the planned fields one by one; the source compares their text joined with bars, which is the same as long as no field holds a bar.
- Text is a sequence of characters and not of UTF-8 bytes; every matched phrase is ASCII, so matches are the same.
- The refund and release protocols are state machines over values: the in-place update of the factory's state by one message is modelled for the synchronous operations (`FactoryCanister`), not again for each message of a protocol.
- The three reads that confirm a receipt (receipt, latest block, canonical hash) are one step of a protocol; a poll and its writes are one step of the factory.
- A steward's signed command is taken as verified: the checks of signature, chain, expiry and nonce, and the nonce table, are left out.
- Times of leases and of commands are natural numbers; a sum past 64 bits is cut off where the source saturates and otherwise taken as it is, and the clocks of different messages are not related unless a statement says so.
- Canister ids that the management canister creates are fresh, session ids are not reused, and claim ids are those of their sessions.
- Encoded records are opaque values in `Persistence`; Candid and the stable-memory layout are left out, and the whole trail, the scanned blocks and the first cursor are remembered by the model only.
- HTTPS outcalls, JSON, RPC retries and fallbacks, cycles, threshold signing and the recovery of the parity are answers of a step.
- ToolSequenceValidator, administration, health reports, artifacts, strategies, the automaton's own agent loop, the indexer's ingestion, the evaluator and the web applications are left out; they add no harder property.
