# Warpgate: what its racing parts keep

Warpgate is a bastion: users reach targets through it with roles, tickets and approvals, on a
cluster of nodes that share one database. This project models the parts of it whose correctness
does not show in any one function: rows changed by guarded UPDATEs, row locks and compare-and-set
from many callers at once, in-memory retry queues, and the codecs and parsers the rest relies on.

Each shared table is a step machine: a statement or a locked transaction is one step, any statement
may fail, and any number of callers interleave. The main results hold for every run. The calls
themselves are methods over that machine: while one waits for the database, `Interfere` stands for
whatever the other callers do.

| files | part of Warpgate |
|---|---|
| `Approvals`, `ApprovalOutcomes`, `ApprovalStaleness`, `ApprovalLedger`, `ApprovalReasks`, `ApprovalStore` | approval requests and the ticket uses they spend and refund |
| `KeyRotation`, `Backfill`, `ClusterBackfill` | rotating the cluster's encryption key and rewriting what is stored, on one node and on many |
| `Base64`, `Encryption`, `Keyring`, `KeyringParsing` | the envelope codec and the key ring |
| `Sessions`, `SessionTree`, `SessionStore` | user and target sessions, ticket deletion, closing, retrying, reaping |
| `Activation` | turning an approved ticket request into a ticket |
| `AccessRecheck`, `ExpirySweep`, `Revocation` | re-checking access after a change or an expiry, and closing what is refused |
| `DbLogin`, `AuthWait` | the database login, and waiting for an authentication to complete |
| `Multipart` | streaming a recording to S3 |
| `TicketQuery`, `SecretReference` | removing the ticket parameter from a URL; secret references |
| `Prelude`, `Text`, `Sorted` | counting, splitting and joining, sorted listing |

`dafny verify dfyconfig.toml` checks everything.

## Where the code falls short of what it is for

Each of these is proved with the exact condition under which it happens.

- A ticket use can appear from nowhere: a request that ended and was refunded is deleted by the
  age-out, the same key asks again (an insert, which spends nothing), and the second request is
  refunded too. From a fresh start a ticket ends with one use more than it was issued
  (`ReaskExceedsSupply`). Over every run the balance stays between zero and the supply plus the number
  of such re-asks (`NoUseFromNowhere`), and each of them follows an age-out (`ReaskFollowsAgeOut`).
- A caller that read an earlier ask can settle a later one (`ReaskSettledByOldReader` is such a run):
  in every reachable state, exactly when the later ask carries a `started` that a caller still
  holds (`StaleSettleIffStampHeld`). Self-approval asks take `started` from the authentication
  state, so theirs can.
- A retired cluster key becomes current again exactly when the nodes' rings retire each other's keys
  in a cycle (`KeysNeverComeBackIffAcyclic`).
- The old key can be given up while a row is still under it: the probe for undecryptable secrets
  comes before the check for stragglers, and a straggler may write in between. That is possible
  exactly when some ring lacks an earlier key another node seals with
  (`FreesOnlyUnneededKeysIffClosed`).
- A row the cipher refuses to seal is left as it was, and the old key is given up all the same; the
  row then needs the primary alone exactly if it needed no sealing (`FreedIffSealableOrFree`).
- A stored secret reads back as it was written exactly when it does not already look like an
  envelope (`StoredSecretRoundTrip`).
- A session that reaches a target under a second ticket, where it already has a row for the target
  under a first, is not collected when the second ticket is deleted (`SecondTicketIsForgotten`,
  `CollectedIffRecorded`).
- A role expiry is swept twice exactly when a sweep moves on from a point the clock was set back to
  (`SetBackSweepsTwice`, `SweptAtMostOnceIff`); none is ever missed (`SweptIffReached`).

## Assumptions

- A statement that fails has changed nothing, and a transaction takes effect at once.
- Ids of sessions, rows, requests and tickets are never reused. A process does not crash.
- A request key has one ticket; a key asks with a bounded ticket only after a login spent a use of
  it, and that use pays for the key's first insert; only decided requests are marked consumed. That
  a re-ask carries a `started` of its own is assumed only where a contract says `FreshRun` or `Sound`.
- The cipher opens what it sealed and adds its 16-byte tag; the digest has at least 8 bytes. Digest,
  cipher, nonces and `trim` are parameters. Nobody else writes secrets during a backfill.
- The authentication state broadcasts every change of its verdict under its lock.
- Authorization does not change during a re-check pass, and a session's user and protocol never do.
- A node joins the cluster before its backfill, is listed for as long as it runs, and takes its
  backfill with it when it goes.
- A process has one sweep task, so nobody else empties its retry queue.

## Model

| member | source | states |
|---|---|---|
| ApprovalOutcomes.RunShape | warpgate-db-entities/src/SessionApprovalRequest.rs:249-485 | in every run, stamps reused or not, each row, each caller's snapshots and the history of asks agree: numbers, stamps, tickets and outcomes |
| ApprovalOutcomes.RunIsSound | warpgate-db-entities/src/SessionApprovalRequest.rs:249-485 | the same, with no two asks of a key sharing a stamp, over every run whose asks bring fresh ones |
| ApprovalOutcomes.SettlesWhatItRead | warpgate-db-entities/src/SessionApprovalRequest.rs:91-130 | where no stamp was reused, whoever settles an ask read that very ask |
| ApprovalStaleness.StaleSettleIffStampHeld | warpgate-db-entities/src/SessionApprovalRequest.rs:383-407 | in every reachable state, a new ask can go on to be settled by a reader of an earlier one if and only if some caller still holds a row of the key with the new ask's `started` |
| ApprovalStaleness.StaleSettleNeedsHolder | warpgate-db-entities/src/SessionApprovalRequest.rs:383-407 | a run that settles an ask by an older row started with someone holding such a row, with the ask's stamp |
| ApprovalStaleness.ReaskSettledByOldReader | warpgate-core/src/approvals/self_approval.rs:166-195 | from empty tables: ask, read, time out, ask again with the same stamp, and the second ask is settled by the reader of the first |
| ApprovalOutcomes.OneSettlementPerAsk | warpgate-db-entities/src/SessionApprovalRequest.rs:383-485 | over any run, stamps reused or not, the settles, closes and abandons of one ask succeed exactly once if it gained an outcome and never otherwise; an outcome is not rewritten |
| ApprovalOutcomes.DecisionsAreNotOverwritten | warpgate-db-entities/src/SessionApprovalRequest.rs:91-130 | an Approved or Rejected row keeps its decision through every run until it is aged out |
| ApprovalOutcomes.AgeOutSparesLiveRows | warpgate-db-entities/src/SessionApprovalRequest.rs:527-541 | the age-out deletes neither pending rows nor decisions not yet consumed |
| ApprovalOutcomes.NoRowMeansNewAsk | warpgate-db-entities/src/SessionApprovalRequest.rs:341-381 | over any run, a key's row that was missing comes back only with a new ask |
| ApprovalLedger.UsesAreConserved | warpgate-db-entities/src/Ticket.rs:93-121 | after every run, uses left, held by pending rows, carried by callers, unattached from logins, kept and lost add up to the supply plus the unpaid asks, and uses are never negative |
| ApprovalReasks.UnpaidAreReasks | warpgate-db-entities/src/SessionApprovalRequest.rs:341-381 | over every run, the asks nobody paid for are exactly the inserts for keys that had asked with the ticket before |
| ApprovalReasks.NoUseFromNowhere | warpgate-db-entities/src/Ticket.rs:93-121 | from a fresh start, a bounded ticket stays between zero and its supply plus the number of such re-asks; without one, within its supply |
| ApprovalReasks.ReaskFollowsAgeOut | warpgate-db-entities/src/SessionApprovalRequest.rs:527-541 | every such re-ask comes after an age-out deleted the key's row |
| ApprovalLedger.QuietBalance | warpgate-db-entities/src/SessionApprovalRequest.rs:279-328 | with nothing in flight or pending, exactly admissions, unused logins and failed refunds have cost a use, and exactly unpaid asks have brought one |
| ApprovalReasks.ReaskExceedsSupply | warpgate-db-entities/src/SessionApprovalRequest.rs:341-381 | from a fresh start, a ticket with a use left and a key can end with one use more than it was issued |
| ApprovalReasks.ReaskAfterAgeOutMintsAUse | warpgate-db-entities/src/SessionApprovalRequest.rs:527-541 | from any reachable state with an unanswered ticketed row, a run of age-out, re-ask and abandon leaves the ticket with one use more |
| ApprovalStore.ReportDecides | warpgate-db-entities/src/SessionApprovalRequest.rs:341-381 | tables on which a statement reports the same lead the call to the same next statement |
| ApprovalStore.SettledOrOver | warpgate-db-entities/src/SessionApprovalRequest.rs:383-407 | after a settle that did not fail, the ask that was read has an outcome, by it or before it |
| ApprovalStore.Table.DecrementUse | warpgate-db-entities/src/Ticket.rs:93-111 | one use less exactly when there was one; otherwise the uses are as they were |
| ApprovalStore.Table.SpendUse | warpgate-db-entities/src/Ticket.rs:93-111 | true with one use less, or with an unlimited ticket untouched; false for a missing or empty ticket; an error changes no use |
| ApprovalStore.Table.ReopenOrReturn | warpgate-db-entities/src/SessionApprovalRequest.rs:303-328 | reports Reopened exactly when this call's UPDATE started a new ask; a lost or failed one goes on to the refund |
| ApprovalStore.Table.TryReopenUnanswered | warpgate-db-entities/src/SessionApprovalRequest.rs:279-328 | under any interference, Reopened exactly when this call asked |
| ApprovalStore.Table.UpsertRequest | warpgate-db-entities/src/SessionApprovalRequest.rs:341-381 | under any interference and failures, Asked exactly when this call asked, and one ask at most |
| ApprovalStore.Table.ReopenOrInsert | warpgate-db-entities/src/SessionApprovalRequest.rs:353-381 | without a pending row: Asked exactly when this call reopened or inserted; an exhausted ticket looks once more for a pending row |
| ApprovalStore.Table.InsertOrRetry | warpgate-db-entities/src/SessionApprovalRequest.rs:366-380 | the insert, and after a lost one a second refresh and reopen: Asked exactly when this call asked |
| ApprovalStore.Table.SettleNextRow | warpgate-db-entities/src/SessionApprovalRequest.rs:383-407 | says true exactly when this call ended the ask; an unapproved end goes through the refund |
| ApprovalStore.Table.SettleEach | warpgate-db-entities/src/SessionApprovalRequest.rs:409-485 | settles what it read one by one until one fails; without a failure every ask read has an outcome, and the count is of those this call ended |
| KeyRotation.RunInv | warpgate-core/src/credential_encryption.rs:98-167 | in every run each key replaced the one before by a ring that holds both, `retiring` is empty or the immediately previous key, and history only grows |
| KeyRotation.OnlyHoldersWrite | warpgate-core/src/credential_encryption.rs:98-140 | a node without the current key changes nothing; the current key changes only by a won swap that retires it |
| KeyRotation.KeysNeverComeBackIffAcyclic | warpgate-core/src/credential_encryption.rs:98-167 | over all runs no key returns, if and only if the rings' replacements form no cycle |
| KeyRotation.KeyOnlyMovesForward | warpgate-core/src/credential_encryption.rs:98-167 | if every ring retires only older keys, each key of every run is newer than the one before |
| KeyRotation.ClearsOnlyItsOwnRotation | warpgate-core/src/credential_encryption.rs:72-82 | a finished node clears `retiring` if and only if no rotation happened since it was in sync or its key has come back, which it cannot where replacements form no cycle |
| KeyRotation.ChangedMeansNewer | warpgate-core/src/credential_encryption.rs:98-140 | between two states of a run, a different current key is a newer one |
| KeyRotation.Parameters.TrySwap | warpgate-core/src/credential_encryption.rs:143-167 | wins, fails, or another node has moved the cluster to a newer key meanwhile |
| KeyRotation.Parameters.Round | warpgate-core/src/credential_encryption.rs:98-140 | one round ends in sync, behind, failed, or having lost to a newer key |
| KeyRotation.Parameters.AdvanceKeyState | warpgate-core/src/credential_encryption.rs:98-140 | the retry loop terminates, in sync with the key that was current then, unable to help, or failed |
| Base64.DecodeUndoesEncode | warpgate-common/src/encryption.rs:72-115 | decoding returns the bytes encoded, for all bytes |
| Encryption.EnvelopeRoundTrip | warpgate-common/src/encryption.rs:291-301 | the parts of an envelope are the fingerprint and payload it was made of |
| Encryption.DecryptUndoesEncrypt | warpgate-common/src/encryption.rs:72-115 | a key decrypts what it encrypted, for every plaintext, envelope-like ones included |
| Keyring.DecryptWithRing | warpgate-common/src/encryption.rs:159-187 | the loop with its matched flag computes the ring's decryption, error cases included |
| Keyring.KeyOrderIsIrrelevant | warpgate-common/src/encryption.rs:159-187 | rings of the same keys with distinct fingerprints decrypt alike in any order |
| Keyring.ReencryptPreserves | warpgate-common/src/encryption.rs:189-200 | re-encrypting a value keeps what the ring decrypts it to |
| Keyring.ReencryptedIsUnderPrimary | warpgate-common/src/encryption.rs:189-200 | with a primary key, what re-encryption returns is an envelope of the primary |
| Keyring.ReencryptIsIdempotent | warpgate-common/src/encryption.rs:189-200 | re-encrypting again changes nothing, and an envelope is never turned into plaintext |
| Keyring.PrimaryAloneSuffices | warpgate-common/src/encryption.rs:189-200 | a readable value, re-encrypted, decrypts to the same plaintext with the primary alone |
| Keyring.StoredSecretRoundTrip | warpgate-common/src/encryption.rs:308-313 | a stored secret reads back as written if and only if it does not look like an envelope |
| KeyringParsing.ParseRetired | warpgate-common/src/encryption.rs:229-252 | the retired keys are exactly the listed ones without repeats, or an item is bad |
| KeyringParsing.ParseEnvKeyring | warpgate-common/src/encryption.rs:229-252 | the ring's fingerprints are pairwise distinct; a bad primary or old key is blamed exactly when there is one |
| Backfill.ReencryptAll | warpgate-common/src/secrets.rs:310-316 | every secret re-encrypted, or nothing because one cannot be |
| Backfill.RewrittenKeepsMeaning | warpgate-core/src/credential_encryption.rs:228-284 | a rewritten row decrypts to what it did, secret by secret |
| Backfill.FreedIffSealableOrFree | warpgate-core/src/credential_encryption.rs:228-284 | a readable, decryptable row that went through the rewrite needs the primary alone if and only if the cipher takes all its plaintexts or none of it was under another key |
| Backfill.SecretStore.ProbeUndecryptable | warpgate-core/src/credential_encryption.rs:176-208 | finds nothing exactly when every readable row decrypts |
| Backfill.SecretStore.RewriteRow | warpgate-core/src/credential_encryption.rs:228-284 | touches that row only, and re-encrypts all of it or none |
| Backfill.SecretStore.RewriteAll | warpgate-core/src/credential_encryption.rs:228-284 | every row is rewritten or as it was, also when an update failed half-way |
| Backfill.SecretStore.BackfillSecrets | warpgate-core/src/credential_encryption.rs:33-85 | on every exit each secret means what it did; the old key is given up only when every readable row decrypted, and then a row needs the primary alone exactly unless the cipher refused it |
| Backfill.SecretStore.BackfillFromEnvironment | warpgate-core/src/credential_encryption.rs:33-85 | the same for every ring the environment can give |
| ClusterBackfill.FreesOnlyUnneededKeysIffClosed | warpgate-core/src/credential_encryption.rs:33-85 | in every interleaving of any nodes' probes, checks, loads and row writes, a key is given up only once every readable row needs the current key alone, if and only if each ring holds every earlier key some node seals with |
| ClusterBackfill.ClosedRingsFreeSafely | warpgate-core/src/credential_encryption.rs:50-82 | for such rings, when a node may clear `retiring` every readable row needs its key alone |
| ClusterBackfill.NeededKeyFreed | warpgate-core/src/credential_encryption.rs:39-65 | for any other, a run in which a row is still under the key that is given up |
| ClusterBackfill.WriterIsKnown | warpgate-core/src/credential_encryption.rs:50-65 | past the straggler check all writers share one key, and what they seal every synced node opens |
| SessionTree.SessionTreeHolds | warpgate-db-entities/src/UserSession.rs:92-188 | in every reachable state a target session is open exactly when its user session is, and a user session has one row per target |
| SessionTree.NoSessionOutlivesItsTicket | warpgate-core/src/services.rs:83-124 | in every interleaving with any failures, an open session admitted by a deleted ticket is in a deleter's hands, in a sweep's, or in a queue |
| SessionTree.QuietMeansClosed | warpgate-core/src/services.rs:83-124 | with nothing in flight and empty queues, every row admitted by a deleted ticket has ended |
| SessionTree.StaysWatched | warpgate-core/src/revocation.rs:239-274 | a session someone answers for is answered for until it has ended |
| SessionTree.DeletedTicketsAdmitNobody | warpgate-db-entities/src/TargetSession.rs:93-118 | opening under a deleted ticket changes nothing |
| SessionTree.ExistingRowIsOpen | warpgate-db-entities/src/TargetSession.rs:82-157 | in every reachable state, a row found instead of inserted is open and the only one of its pair |
| SessionTree.EndChildrenFindsNothing | warpgate-core/src/cluster.rs:523-548 | the safety net changes nothing in any reachable state |
| SessionTree.EndedForGood | warpgate-db-entities/src/UserSession.rs:106-145 | an ended session stays ended through every run |
| SessionTree.CollectedIffRecorded | warpgate-db-entities/src/TargetSession.rs:82-200 | deleting a ticket collects a session let in under it if and only if it had no row for the target, or had one under this ticket |
| SessionTree.SecondTicketIsForgotten | warpgate-db-entities/src/TargetSession.rs:164-170 | a run in which a session let in under a second ticket is open and unwatched after that ticket's deletion |
| SessionStore.Services.OpenOrLookup | warpgate-db-entities/src/TargetSession.rs:82-157 | which outcome when: ended parent, invalid ticket, a fresh row under the ticket, or an open row that was there; a failure changes nothing |
| SessionStore.Services.RevokeOpenMatching | warpgate-db-entities/src/UserSession.rs:171-188 | under interference, all that matched and was open has ended on success, and nobody else was revoked |
| SessionStore.Services.CloseSessions | warpgate-core/src/services.rs:71-76 | on success the rows have ended and this node's handles for them are closed; on failure the attempt stays with its caller |
| SessionStore.Services.CloseAdmitted | warpgate-core/src/services.rs:83-99 | all held sessions are shut, or all are queued |
| SessionStore.Services.DeleteTicketClosingSessions | warpgate-core/src/services.rs:101-124 | the ticket is gone and whoever it admitted is shut or queued; a failed transaction changes nothing |
| SessionStore.Services.TakeCloses | warpgate-core/src/revocation.rs:134-138 | empties the queue into an ascending list of exactly its ids |
| SessionStore.Services.PushCloses | warpgate-core/src/revocation.rs:123-132 | the failed ids are in the queue and out of the caller's hands, and nothing else changes |
| SessionStore.Services.RetrySingly | warpgate-core/src/revocation.rs:255-265 | each id of a failed chunk is shut, or back in the queue |
| SessionStore.Services.RetryChunk | warpgate-core/src/revocation.rs:245-265 | a chunk is closed whole, or each of its ids is shut or back in the queue |
| SessionStore.Services.RetryPendingCloses | warpgate-core/src/revocation.rs:239-274 | each id taken is shut (ended, and its handles closed) or back in the queue; the queue is the failing ids and what arrived meanwhile; failures never exceed retries; at most three examples |
| SessionStore.Services.Reap | warpgate-core/src/cluster.rs:558-586 | whoever was bound to a node not listed has ended, unless the list was empty; nobody bound to a listed node is revoked by the pass |
| SessionStore.Services.CloseIds | warpgate-core/src/services.rs:71-76 | on success every listed session has ended and this node's handles for them are closed; nobody else is revoked |
| SessionStore.Services.SweepChildren | warpgate-core/src/cluster.rs:523-548 | leaves every reachable state as it is |
| SessionStore.Services.Shutdown | warpgate-core/src/cluster.rs:422-430 | this node's sessions have ended, no other was revoked, and the node row is gone |
| Sorted.Drained | warpgate-core/src/revocation.rs:134-138 | a set listed in ascending order, without repeats |
| Activation.RunInv | warpgate-core/src/ticket_requests.rs:364-517 | in every run a request remembers its ticket, every ticket is accounted for, and plans and mints match what was asked |
| Activation.AtMostOneTicketPerRequest | warpgate-core/src/ticket_requests.rs:452-517 | two tickets ever minted come from two requests, whatever was interleaved |
| Activation.TicketsKeepTheirLimits | warpgate-core/src/ticket_requests.rs:364-517 | every self-service ticket was minted for a request, for its user, and lives no longer than asked for nor than the cap read |
| Activation.Desk.PrepareActivation | warpgate-core/src/ticket_requests.rs:364-422 | mints nothing; a plan for this request and user, or the refusal |
| Activation.Desk.CommitActivation | warpgate-core/src/ticket_requests.rs:452-517 | mints exactly one ticket as planned and says so, or none |
| Activation.Desk.Activate | warpgate-core/src/ticket_requests.rs:341-362 | under interference, one ticket for this user's request, or none |
| AccessRecheck.ToCloseIs | warpgate-core/src/revocation.rs:276-340 | the sessions to close are those with an open, unticketed, non-HTTP row in scope whose pair is refused |
| AccessRecheck.Visit | warpgate-core/src/revocation.rs:311-329 | one row: a remembered verdict is the one a fresh check gives, and a check is made only for a new pair |
| AccessRecheck.SessionsToClose | warpgate-core/src/revocation.rs:276-340 | the memoised loop finds exactly those, sorted, with one check per pair |
| AccessRecheck.LiveStreams.Register | warpgate-core/src/live_streams.rs:58-77 | a fresh id, not cancelled, for this stream |
| AccessRecheck.LiveStreams.Drop | warpgate-core/src/live_streams.rs:49-55 | that stream is gone, the others stay |
| AccessRecheck.LiveStreams.Cancel | warpgate-core/src/live_streams.rs:119-136 | cancels and counts exactly the streams of this user, target and kind |
| AccessRecheck.LiveStreams.Reauthorize | warpgate-core/src/revocation.rs:385-412 | cancels exactly the streams whose own admitting rule fails |
| ExpirySweep.SweptExactlyOnce | warpgate-core/src/services.rs:234-259 | with a monotone clock and any failures, what expired by the last sweep was swept once, the rest not at all |
| ExpirySweep.SweptIffReached | warpgate-core/src/services.rs:234-259 | whatever the clock does, an expiry was swept if and only if some sweep reached it |
| ExpirySweep.SweptAtMostOnceIff | warpgate-core/src/services.rs:234-259 | no expiry is swept twice if and only if no sweep moves on from behind the furthest point reached |
| ExpirySweep.SetBackSweepsTwice | warpgate-core/src/services.rs:234-259 | a clock set back in between sweeps an expiry twice |
| ExpirySweep.InactiveAtRecheck | warpgate-db-entities/src/UserRoleAssignment.rs:27-48 | a swept assignment is inactive at every later re-check |
| ExpirySweep.TakenAsSwept | warpgate-core/src/revocation.rs:417-440 | over any ticks, a standing assignment is taken once per window that covers its expiry, and its user is among those re-checked |
| ExpirySweep.AssignmentTakenOnce | warpgate-core/src/services.rs:234-259 | with a monotone clock and any failures, it is taken once when its expiry is reached, and not before |
| Revocation.ListedToClose | warpgate-core/src/revocation.rs:276-305 | the query's rows give the sessions to close of the tables they were read from |
| Revocation.Revoker.TryClose | warpgate-core/src/revocation.rs:276-340 | under interference, on success every session refused in the tables it read has ended |
| Revocation.Revoker.Attempt | warpgate-core/src/revocation.rs:184-199 | the change is carried out, its refused sessions over for good, or queued; no change is lost or made up |
| Revocation.Revoker.CloseNoLongerAuthorised | warpgate-core/src/revocation.rs:184-199 | the change is submitted and tried once, with the same outcome |
| Revocation.Revoker.RetryPending | warpgate-core/src/revocation.rs:225-230 | every queued change is tried once more, in order, and has then closed its sessions or is queued again |
| Revocation.Revoker.OnTick | warpgate-core/src/services.rs:234-259 | tries exactly the queued changes and then the users of the window (last success, now]; the window moves on only when the query went through; every sweep so far was followed by a re-check of its users |
| DbLogin.Login.HoldForAdminApproval | warpgate-core/src/db_auth.rs:80-93 | the success message is sent at most once, exactly when the permit is taken |
| DbLogin.Login.NotifyAwaiting | warpgate-core/src/db_auth.rs:69-77 | a notice that takes the permit sends the success message, and only then |
| DbLogin.Login.Admit | warpgate-core/src/db_auth.rs:255-283 | an approval has one success message and no denial, after authorization and gate; a refusal ends in one denial |
| DbLogin.Login.Accept | warpgate-core/src/db_auth.rs:230-284 | an Accepted verdict leads to an approval with the attempts cleared, or to one denial; an unreachable target is a failed attempt |
| DbLogin.Login.AskPassword | warpgate-core/src/db_auth.rs:286-307 | goes on exactly on a valid password; a failed attempt is recorded exactly for an invalid one |
| DbLogin.Login.AskOnWeb | warpgate-core/src/db_auth.rs:309-362 | a protocol without web prompts sends no success message before its denial |
| DbLogin.Login.AuthorizeUser | warpgate-core/src/db_auth.rs:189-377 | for every account and every sequence of turns, the trace property of the whole login; the failed attempts are one for an unknown user or for the faulty turn it ended in, none otherwise; an approval ends with the attempts cleared |
| DbLogin.Login.Take | warpgate-core/src/db_auth.rs:226-376 | one turn of the loop: goes on only on a valid password or a web approval, and records exactly a wrong password, a rejection or a target out of reach |
| DbLogin.Login.AuthorizeTicket | warpgate-core/src/db_auth.rs:141-186 | the same for a ticket, with no failed attempt recorded |
| DbLogin.Login.RunAsUser | warpgate-core/src/db_auth.rs:101-140 | at most one success and one denial; approval means one success, no denial, after verdict, authorization and gate; refusal means one denial, last; a blocked address records nothing |
| DbLogin.Login.RunAsTicket | warpgate-core/src/db_auth.rs:101-187 | the same for a ticket that was spent |
| AuthWait.NoLostWakeUp | warpgate-core/src/auth_state_store.rs:135-163 | in every run, a terminal verdict in force is ahead of each waiter that has not returned, and still in the ring |
| AuthWait.AcceptedMeansAccepted | warpgate-core/src/auth_state_store.rs:135-163 | a waiter returns Accepted only if the state was accepted at some moment since the call |
| AuthWait.WakesWithinCapacity | warpgate-core/src/auth_state_store.rs:135-163 | with a terminal verdict in force, a waiter returns within eight moves of its own |
| AuthWait.FinalVerdictIsCurrent | warpgate-core/src/auth_state_store.rs:135-163 | where terminal verdicts are final, the answer is the verdict in force |
| AuthWait.AuthWaiter.WaitForAuthCompletion | warpgate-core/src/auth_state_store.rs:135-163 | under interference, a terminal answer, Accepted only if that was in force since the call |
| Multipart.Upload.UploadPart | warpgate-aws/src/s3.rs:240-260 | numbers first and records last, so a lost part shows as a shortfall |
| Multipart.Upload.Push | warpgate-aws/src/s3.rs:231-238 | what arrived and the buffer are all bytes pushed, in full parts, unless a part was lost |
| Multipart.Upload.TryFinish | warpgate-aws/src/s3.rs:278-303 | success means the object is what was pushed, in parts 1 to n, all full but the last; a lost part means an error |
| Multipart.Upload.Finish | warpgate-aws/src/s3.rs:266-276 | the same, and every error is followed by an abort |
| TicketQuery.WithoutTicketQueryParam | warpgate-common-http/src/ticket_query.rs:20-58 | the loop over the pairs gives a URL from which a decoder reads exactly the other pairs, in order, with base and fragment unchanged, the same URL if and only if no pair is a ticket, and nothing left to remove |
| TicketQuery.OtherPairsStay | warpgate-common-http/src/ticket_query.rs:20-58 | a form decoder reads the same pairs, in order, without exactly the ticket ones |
| TicketQuery.BaseAndFragmentStay | warpgate-common-http/src/ticket_query.rs:20-52 | base and fragment are unchanged |
| TicketQuery.RewriteIsIdempotent | warpgate-common-http/src/ticket_query.rs:56-58 | removing twice is removing once |
| TicketQuery.UnchangedIffNoTicket | warpgate-common-http/src/ticket_query.rs:10-33 | the URL is returned unchanged if and only if no decoded pair is a ticket |
| SecretReference.PrintUndoesParse | warpgate-common/src/secrets.rs:172-216 | printing an accepted reference returns the string |
| SecretReference.ParseUndoesPrint | warpgate-common/src/secrets.rs:172-216 | parsing a printed reference returns its four fields, whatever the field contains |
| SecretReference.ParsesIffPrinted | warpgate-common/src/secrets.rs:182-235 | a string is accepted if and only if it is the print of a well-formed reference |
| SecretReference.PrintIsInjective | warpgate-common/src/secrets.rs:172-180 | no two well-formed references print alike |
| SecretReference.AsStringUndoesFromStored | warpgate-common/src/secrets.rs:281-291 | loading and printing is the identity on every string, malformed references included |
| SecretReference.SavedValueLoadsIffLoadable | warpgate-common/src/secrets.rs:281-363 | saving and loading returns a value if and only if the loader can produce it |

## Left out

- Migrations, entity mappings, API glue, audit events and log lines: nothing to prove about them.
- TLS, certificate issuance and the AWS, Vault and Kubernetes clients: foreign calls, present only as success or failure.
- AES-GCM, SHA-256 and UTF-8 replacement are parameters; percent decoding, base 64 and UTF-8 checking are modelled.
- `State::discard_session`, which deletes a provisional session's rows in separate statements, is not a step of the session machine.
- Deleting a user removes their tickets and closes their sessions by account; that path is not a step of the session machine.
- `cleanup_db` deletes old ended sessions and requests; of it only the deletion of requests is a step, in `Activation`.
- Which unowned HTTP sessions count as orphaned (protocol, grace period, cookie) is the caller's input to `Reap`.
- The peers' closing of their own handles is a notification; only this node's handles are modelled.
- That a request with a ticket is Approved is not claimed: a denial that read it pending may land later.
- `AuthStateStore`'s map and the forwarding of web requests: easy members.
- MFA factor selection and credential policies: finite tables; a login takes its verdicts as they come.
- Backfill.SecretStore.BackfillSecrets: one node with nobody else at work; the node's position and the stragglers are inputs, as `ClusterBackfill` has them for many nodes. The two SSH host keys are rows of their own, though the code writes them in one update.
- `ClusterBackfill` tracks the key each secret is under and not its bytes, and has no requests that store new secrets meanwhile.
- Multipart.Upload.UploadPart: the part number does not wrap at 32 bits; S3 refuses more than 10,000 parts.
- AccessRecheck.LiveStreams.Reauthorize: one pass is taken at once; streams that appear during it are for the next.
- AccessRecheck.SessionsToClose: one pass is taken at once; sessions that appear during it are for the next.
- DbLogin.Login.AuthorizeUser: takes a finite script of turns; a login still waiting when it ends is `Unfinished`.
- AuthWait.AuthWaiter.WaitForAuthCompletion: the timeout is a number of wake-ups. The channel cannot close while a waiter holds the state.
