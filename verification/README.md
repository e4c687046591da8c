# Feishu gateway: verified model of the delivery protocol

The gateway takes signed notifications, alertmanager payloads and chat messages and posts them to one
Feishu chat. It may be asked twice, the network may lose a reply, several handlers run at once, and the
process may die at any moment. This project models the code that keeps such a delivery straight and
proves what holds over whole runs.

## What is modelled

| file | of the gateway |
|---|---|
| `Store.dfy` | `StateStore`: claims, delivery ledger, administrative ledger, pruning, as a class over three maps, each statement proved against a function on its table |
| `Delivery.dfy` | the delivery protocol as a step system: tasks with program counters, the network, the provider, crashes, cancellations, restarts |
| `Ownership.dfy`, `Rows.dfy`, `Network.dfy`, `Flags.dfy`, `Replay.dfy` | the invariants of that system, step by step |
| `Guarantees.dfy`, `Duplicates.dfy`, `History.dfy` | its main theorems, for every reachable state; what a repetition is told; what each statement writes to a row |
| `Scenarios.dfy` | runs that exist: a delivery can complete, and what happens where a condition of a theorem fails |
| `Collisions.dfy` | notification ids that spell the key of an alert, and flags that outlive their claims: what they spoil, and exactly when |
| `Wording.dfy` | requests of one event with different texts: what they spoil, and exactly when |
| `Metrics.dfy` | the attempt counters of one process and of one ledger row |
| `Service.dfy`, `Interference.dfy` | `deliver_notification`, `deliver_alerts`, `handle_feishu_text` and `_send_chunks` as imperative code with the other tasks at work during each `await`, and the proof that the protocol's steps are the interference this code relies on |
| `Refinement.dfy` | the converse: with such interference one call of `deliver_notification`, `deliver_alerts` or `handle_feishu_text` runs the protocol, so its theorems hold after it; and such environments exist |
| `Administrative.dfy`, `AdministrativeService.dfy` | governed administrative communications as a step system of their own, and `send_administrative_communication` as imperative code that runs it |
| `Sender.dfy`, `SenderGuarantees.dfy`, `SenderRetries.dfy` | `FeishuSender`: two nested retry loops around a token cache that others may change at each `await`, proved equal to recursive walks, and what follows |
| `TokenCache.dfy`, `TokenRefinement.dfy` | the token cache under any interleaving of callers and 401 resets, and that the code of `_access_token` runs it |
| `Transport.dfy` | sender and service together: which reply of the provider leads to which outcome of a delivery |
| `Ingress.dfy` | `AdministrativeIngressClient.send_metadata` |
| `Splitting.dfy`, `Text.dfy` | `split_text` and the Python string methods it uses |
| `Keys.dfy`, `Security.dfy` | joined keys and names, signatures, the acceptance window |
| `Routing.dfy`, `Commands.dfy` | prefix routing with `dispatch`, and the chat commands |

## How to read the step system

- A task interleaves with the others between any two store statements. The event loop of the code
  switches only at an `await`, so the model has more runs than the code. A cancellation may strike
  anywhere; a task that dies of a store error is one that was cancelled there.
- A post stays on the wire for good: it may arrive late, arrive twice or never, with or without a reply,
  also after a crash. The provider displays a post unless it knows the name. A reply with code 0 is
  possible only for a name it knows; every other reply is possible at any time.
- `tasks` keeps every task that ever started, and `owner`, `expired`, `confirmedBy` record who won,
  lost or confirmed what. No step reads them; they let a statement about one state speak of the whole run.
- The uuid of a message is represented by the name it is computed from (version 5 of RFC 9562 section 5.5, taken as
  free of collisions). SHA-256 and HMAC are parameters; a lemma that needs them not to collide says so for the
  inputs at hand.
- The clock never goes back. A restart prunes before it serves.

## Findings

- Replays of a signed request are harmless in all runs if and only if claims are kept for two acceptance
  windows, or the window is negative (`ReplayBoundIsExact`). The configured 300 and 604800 seconds meet this.
- A notification id may spell the key of an alert (`alert:` and a digest); such an id passes the format check
  (`AlertKeyIsEventId`). It then shares the ledger row of that alert. `CollidingIdTakesRow` shows the row of a
  delivered alert taken over, "delivering" and "confirmed" at once, with no restart; `CollidingIdIsToldConfirmed`
  shows a second request for that notification answered `deliveryConfirmed = true` although nothing was ever
  confirmed for it. `SeparationIsExact` gives the exact condition for requests from any set: each guarantee
  about rows and flags holds in all runs if and only if no notification id in the set spells the key of an
  alert in it (or the window is negative and no notification is let in).
- `begin_delivery` does not clear `delivery_confirmed`. Where ids do not collide, a row that carries the flag
  without being confirmed is one whose confirmed claim a restart has pruned (`FlagOutlivesOnlyPrunedClaims`), and
  no retention of zero or more avoids that (`FlagOutlivesClaim`). `FlagIsExact` gives the exact condition
  for "a row with the flag is confirmed": nothing but chat is delivered, or the retention is negative and no ids
  collide. Even then the event of the flag was confirmed (`ConfirmedMeansConfirmed`).
- The provider confirms a name, not a text. If the reply to a post is lost and the event comes again with another
  text, the second request is told "fine" and reports success while the recipient sees only the first text
  (`SecondWordingIsNotShown`). `WordingIsExact` gives the exact condition: in all runs the recipient sees
  the text of every task that reports success if and only if no event comes with two readable texts that split
  differently and there is no chat. Chat answers are composed afresh for every redelivery, so for them it can
  always happen.
- docs/administrative-ingress-compatibility.md sends texts "starting with" the prefix to the
  administrative lane. The code asks for more: the prefix must be the whole first token
  (`RouteIffFirstToken`): a text that begins with the prefix takes the lane only if whitespace or
  nothing follows (`BeginningIsNotEnough`). The model follows the code.

## Model

| member | source | states |
|---|---|---|
| `Splitting.SplitText` | src/feishu_dify_gateway/service.py:91-105 | the loop terminates and builds the chunks that the recursive definition gives |
| `Splitting.ChunksCover` | src/feishu_dify_gateway/service.py:96-104 | the stripped text is the chunks with only whitespace between; a gap is empty exactly at a window without a good break; the cut is at the last space or line break; each chunk is bounded, non-empty and trimmed |
| `Splitting.SplitKeepsText` | src/feishu_dify_gateway/service.py:91-105 | no readable character is lost, added or moved; only a blank text has no chunks |
| `Splitting.SplitEach` | src/feishu_dify_gateway/service.py:91-105 | every chunk fits the limit and splitting it again gives it back |
| `Splitting.OnePiece` | src/feishu_dify_gateway/service.py:91 | exactly the messages of at most 3500 characters, outer whitespace apart, go out in one piece |
| `Splitting.SplitCount` | src/feishu_dify_gateway/service.py:97-102 | all chunks but the last use up half a window, which bounds their number |
| `Keys.ChunkNameInjective` | src/feishu_dify_gateway/service.py:147-150 | a chunk name determines key and index although keys may contain the separator |
| `Keys.NameSpacesDisjoint` | src/feishu_dify_gateway/service.py:147-151 | names of different chunks differ, across notifications, alerts and chat, and none is an administrative name |
| `Keys.NamesAsStored` | src/feishu_dify_gateway/service.py:147-156 | the names as the database and the provider see them |
| `Keys.ClaimKeyInjective` | src/feishu_dify_gateway/service.py:156 | claim keys of different deliveries differ |
| `Keys.LedgerIdsCollide` | src/feishu_dify_gateway/service.py:185 | two deliveries share a ledger id exactly when a notification id spells an alert key |
| `Keys.AlertMaterialInjective` | src/feishu_dify_gateway/service.py:412-416 | the alert material determines the alert even if the fingerprint contains the separator |
| `Keys.MaterialAsHashed` | src/feishu_dify_gateway/service.py:412-416 | the four parts of the alert material in order |
| `Keys.AlertKeyIdentifies` | src/feishu_dify_gateway/service.py:412-416 | equal alert keys mean equal alerts unless the hash collides on them |
| `Security.SignerIsAccepted` | src/feishu_dify_gateway/security.py:23-48 | what was signed at one time is accepted at another exactly if the two lie within the window, hex digits in any case |
| `Security.CanonicalInjective` | src/feishu_dify_gateway/security.py:19-20 | the canonical text determines timestamp, event id and digest |
| `Security.CanonicalLines` | src/feishu_dify_gateway/security.py:19-20 | the canonical text line by line |
| `Security.EventIdFormat` | src/feishu_dify_gateway/security.py:8 | which characters and lengths an event id may have |
| `Security.RefusalsInOrder` | src/feishu_dify_gateway/security.py:29-48 | a request is refused for the first check it fails, accepted exactly if it fails none, and faults exactly on a timestamp too long for `int` or, inside the window, a signature beyond ASCII |
| `Security.SignatureBinds` | src/feishu_dify_gateway/security.py:23-48 | one signature is accepted for one request only, within two windows |
| `Store.ClaimLaws` | src/feishu_dify_gateway/store.py:160-182 | claim and release cancel out; a finished claim can be neither won nor released; finishing keeps the claim time |
| `Store.BeginDelivery` | src/feishu_dify_gateway/store.py:184-208 | the row counts the attempt, keeps the row shape, and no other row changes |
| `Store.MarkConfirmed` | src/feishu_dify_gateway/store.py:210-222 | keeps the shape of a begun row and every other row |
| `Store.MarkRetrying` | src/feishu_dify_gateway/store.py:224-237 | keeps the shape of a begun row and every other row |
| `Store.MarkPermanentFailed` | src/feishu_dify_gateway/store.py:239-252 | keeps the shape of a begun row and every other row |
| `Store.PrepareSynthetic` | src/feishu_dify_gateway/store.py:254-272 | there is a row afterwards, an existing one is untouched |
| `Store.StateStore.TryClaim` | src/feishu_dify_gateway/store.py:160-167 | in place, as `ClaimEvent`; wins exactly if the key is free |
| `Store.StateStore.Finish` | src/feishu_dify_gateway/store.py:169-175 | in place, as `MarkProcessed` |
| `Store.StateStore.Release` | src/feishu_dify_gateway/store.py:177-182 | in place, as `ReleaseEvent` |
| `Store.StateStore.Begin` | src/feishu_dify_gateway/store.py:184-208 | in place, as `BeginDelivery` |
| `Store.StateStore.Confirm` | src/feishu_dify_gateway/store.py:210-222 | in place, as `MarkConfirmed` |
| `Store.StateStore.Retry` | src/feishu_dify_gateway/store.py:224-237 | in place, as `MarkRetrying` |
| `Store.StateStore.Fail` | src/feishu_dify_gateway/store.py:239-252 | in place, as `MarkPermanentFailed` |
| `Store.StateStore.Prepare` | src/feishu_dify_gateway/store.py:254-272 | in place, as `PrepareSynthetic`, and the row returned |
| `Store.StateStore.BeginAdministrative` | src/feishu_dify_gateway/store.py:281-299 | in place, as `BeginAdmin`; inserts exactly if the id is new |
| `Store.StateStore.AcceptAdministrative` | src/feishu_dify_gateway/store.py:315-332 | in place, as `MarkAdminAccepted` |
| `Store.StateStore.DoubtAdministrative` | src/feishu_dify_gateway/store.py:334-347 | in place, as `MarkAdminUnknown` |
| `Store.StateStore.Prune` | src/feishu_dify_gateway/store.py:384-406 | in place; removes exactly the claims won before the cutoff, whatever their status, and the settled rows written before it; the returned count is what the tables lost |
| `Delivery.DoAct` | src/feishu_dify_gateway/service.py:153-235 | a statement touches its own task, row and post only; only claim statements change claims |
| `Guarantees.ClaimsAreExclusive` | src/feishu_dify_gateway/store.py:160-182 | at most one task works under a key, and the winner of every claim under way is at work on it or was lost with it |
| `Guarantees.ClaimsPersist` | src/feishu_dify_gateway/store.py:169-182 | until a restart finished claims never change and only the owner releases a claim |
| `Guarantees.RestartPrunes` | src/feishu_dify_gateway/app.py:73 | a restart removes exactly the claims won before its cutoff and the prepared, confirmed and finally failed rows written before it, and changes no other |
| `Guarantees.KeysCompleteOnce` | src/feishu_dify_gateway/service.py:321-369 | between restarts each key is delivered to completion at most once, over any resubmissions |
| `Guarantees.DispatchesAreBounded` | src/feishu_dify_gateway/service.py:444-456 | control-plane requests of one chat event are at most one more than its claims given up or pruned |
| `Guarantees.RowsKeepTheirShape` | src/feishu_dify_gateway/store.py:184-272 | which columns of a ledger row are set, in every reachable state |
| `History.RowsAreWritten` | src/feishu_dify_gateway/store.py:184-272 | every step of every run: what each statement writes to the row of its event, what it leaves, and that no other row changes; the creation time, the synthetic mark and the first acceptance are kept |
| `History.RowsStay` | src/feishu_dify_gateway/store.py:390-397 | only a restart removes rows |
| `Guarantees.FinishedClaimsHaveRows` | src/feishu_dify_gateway/service.py:196-215 | where ids do not collide, a finished claim has its row in the matching final status, written after the claim was won |
| `Guarantees.RestartKeepsRows` | src/feishu_dify_gateway/store.py:384-397 | pruning never drops the row of a finished claim it keeps |
| `Guarantees.ConfirmedMeansConfirmed` | src/feishu_dify_gateway/service.py:157-184 | where ids do not collide, a confirmed row and an answer to a duplicate imply that a task of that very event saw every chunk confirmed |
| `Duplicates.DuplicatesAreTold` | src/feishu_dify_gateway/service.py:157-184 | the answer to a duplicate is the truth about the row; a delivered claim is told confirmed, a finally failed one so, and one under way "delivering"; "deduplicated" only without a row or with a prepared one |
| `Duplicates.RepeatIsToldConfirmed` | src/feishu_dify_gateway/service.py:157-184 | who repeats a delivered notification is told that it was confirmed |
| `Guarantees.SuccessMeansConfirmed` | src/feishu_dify_gateway/service.py:196-235 | a task that reports success saw the name of every one of its own chunks confirmed, ids colliding or not |
| `Guarantees.FlagMeansConfirmed` | src/feishu_dify_gateway/store.py:210-222 | a confirmed row was confirmed to some event with this ledger id, ids colliding or not |
| `Guarantees.FlagOutlivesOnlyPrunedClaims` | src/feishu_dify_gateway/store.py:193-205 | where ids do not collide, a row that carries the flag is confirmed, or a restart has pruned the claim it was confirmed under |
| `Guarantees.ChunksAreShownInOrder` | src/feishu_dify_gateway/service.py:143-151 | the recipient sees the chunks of a delivery in order without gap or repeat |
| `Guarantees.RecipientSeesMessageOnce` | src/feishu_dify_gateway/service.py:143-235 | with one readable message per event the display is a prefix of its chunks, and all of them once a task is done |
| `Guarantees.SameTextIsShownOnce` | src/feishu_dify_gateway/service.py:143-235 | if every request of an event carries the same text, the display is a prefix of the chunks of that text, and all of them once a request is done |
| `Guarantees.ConfirmedRowShowsAll` | src/feishu_dify_gateway/store.py:210-222 | a confirmed ledger row means the whole message is on display |
| `Guarantees.SignedRequestDeliversOnce` | src/feishu_dify_gateway/app.py:193-214 | if claims outlive two windows a signed request completes at most once over all runs |
| `Scenarios.ReplayBoundIsExact` | src/feishu_dify_gateway/security.py:43-45 | that bound is necessary and sufficient, for every configuration |
| `Scenarios.EarlyPruneDeliversTwice` | src/feishu_dify_gateway/store.py:384-389 | the run that delivers one request twice when claims are kept for less |
| `Scenarios.CanDeliver` | src/feishu_dify_gateway/service.py:153-235 | from any reachable state with a free claim a delivery can complete |
| `Scenarios.OrphanIsFreed` | src/feishu_dify_gateway/store.py:387-389 | a claim lost in a crash is freed by the first restart past the retention, and its event can then be delivered |
| `Scenarios.OrphanBlocks` | src/feishu_dify_gateway/store.py:387-389 | every earlier restart keeps it |
| `Scenarios.FlagOutlivesClaim` | src/feishu_dify_gateway/store.py:193-205 | for every subject with a ledger row and every retention of zero or more, the run in which a delivering row still carries the confirmed flag |
| `Collisions.AlertKeyIsEventId` | src/feishu_dify_gateway/security.py:8 | the key of an alert is an acceptable event id |
| `Collisions.CollidingIdTakesRow` | src/feishu_dify_gateway/service.py:185-187 | the run of these two events in which a notification takes over the ledger row of a delivered alert, without a restart |
| `Collisions.CollidingIdIsToldConfirmed` | src/feishu_dify_gateway/service.py:157-184 | the run of these two events in which an event is answered as confirmed that never was |
| `Collisions.SeparationIsExact` | src/feishu_dify_gateway/service.py:185-215 | for any set of subjects: rows follow claims, rows and answers are true, and flags follow status in all runs, each if and only if no notification id in the set spells an alert key in it |
| `Collisions.FlagIsExact` | src/feishu_dify_gateway/store.py:193-205 | for any set of subjects and any configuration: a row with the flag is confirmed in all runs if and only if nothing but chat is delivered, or the retention is negative and no ids collide |
| `Wording.SecondWordingIsNotShown` | src/feishu_dify_gateway/service.py:143-151 | the run in which a second request with another text succeeds and is never shown |
| `Wording.WordingIsExact` | src/feishu_dify_gateway/service.py:143-235 | for any set of requests: every success has exactly its own text on display in all runs if and only if no event comes with two readable texts that split differently and there is no chat |
| `Metrics.AttemptsAreConserved` | src/feishu_dify_gateway/service.py:185-218 | counted attempts are the counted outcomes, the attempts under way and the cancelled ones; counted successes and final failures are the tasks that ended so in this process |
| `Metrics.AttemptsCountCalls` | src/feishu_dify_gateway/store.py:184-208 | over any run the attempts of a ledger row are the `begin_delivery` calls for its id since the row was made |
| `Service.GatewayService.SendChunks` | src/feishu_dify_gateway/service.py:143-151 | the calls made are the chunks 0, 1, 2, ... with recipient, text and name, up to the first failure, which is thrown on; an empty message makes none |
| `Service.GatewayService.Attempt` | src/feishu_dify_gateway/service.py:185-218 | the calls made, and how claim, row, attempts and times end after success, retryable and permanent failure, while other tasks run |
| `Service.GatewayService.DeliverNotification` | src/feishu_dify_gateway/service.py:153-235 | a duplicate changes nothing and is told the status and the flags of its row; a fresh request makes its calls and ends in the stated outcome |
| `Service.GatewayService.DeliverAlerts` | src/feishu_dify_gateway/service.py:321-369 | accepted and deduplicated add up; each key is accepted once; the calls are those of the accepted alerts in order; earlier alerts stand, the failed one has its outcome, later ones are untouched; a key left alone by others is a duplicate exactly if it was claimed before |
| `Service.GatewayService.HandleFeishuText` | src/feishu_dify_gateway/service.py:432-458 | strangers and repetitions change nothing; otherwise the one request of the command goes out, its answer is sent, and the claim is finished or given back |
| `Interference.OthersKeepToRely` | src/feishu_dify_gateway/service.py:151 | a step of another task, or the post itself, leaves the held delivery and all finished alerts alone |
| `Interference.AwaitIsRely` | src/feishu_dify_gateway/service.py:151 | so does any number of them, which is what the service methods rely on |
| `Refinement.RunsAreConsiderate` | src/feishu_dify_gateway/service.py:151 | for whatever the others do in a run there is an environment that does just that during the awaits and keeps to all that the methods require |
| `Refinement.AttemptIsRun` | src/feishu_dify_gateway/service.py:185-218 | in such an environment what `Attempt` makes of the tables is what a run of the protocol makes of them |
| `Refinement.DeliveryIsRun` | src/feishu_dify_gateway/service.py:153-235 | so is a whole delivery of a notification or alert, from claim to outcome, and its success means every chunk was confirmed |
| `Refinement.DuplicateIsRun` | src/feishu_dify_gateway/service.py:157-184 | and so is a duplicate, with the same answer |
| `Refinement.PayloadIsRun` | src/feishu_dify_gateway/service.py:321-369 | a whole payload of alerts is a run |
| `Refinement.ChatIsRun` | src/feishu_dify_gateway/service.py:444-458 | one chat message, from the free claim to the end, is a run |
| `Refinement.NotificationInProtocol` | src/feishu_dify_gateway/service.py:153-235 | `deliver_notification` called in a reachable state ends in one with the same tables and result; its "confirmed" means that every chunk was, and a duplicate is told what row and claim say |
| `Refinement.AlertsInProtocol` | src/feishu_dify_gateway/service.py:321-369 | `deliver_alerts` called in a reachable state ends in one with the same tables |
| `Refinement.ChatInProtocol` | src/feishu_dify_gateway/service.py:432-458 | `handle_feishu_text` likewise, with the same result |
| `Transport.CallIsRetryable` | src/feishu_dify_gateway/service.py:371-375 | a failed call of `send_text` is retryable exactly if it broke unexpectedly or its last await ended in a network error or a listed status; the code that is recorded |
| `Transport.LastReplyDecides` | src/feishu_dify_gateway/service.py:185-218 | an attempt ends "retrying" with its claim released exactly if its last call failed so, confirmed exactly if that call succeeded, and failed for good otherwise; a blank message fails for good |
| `AdministrativeService.AdministrativeService.SendAdministrativeCommunication` | src/feishu_dify_gateway/service.py:237-319 | a known event with the same content is told the recorded state, with other content it is a conflict, and neither sends anything; a new one makes one call and its row keeps the outcome |
| `AdministrativeService.SendTwice` | src/feishu_dify_gateway/service.py:257-319 | a repetition makes no second call and is told how the first one ended |
| `AdministrativeService.SendOther` | src/feishu_dify_gateway/service.py:257-265 | other content under a known event is refused, whatever became of the first |
| `AdministrativeService.AwaitLeavesRow` | src/feishu_dify_gateway/service.py:295-299 | any number of steps of other requests leaves the row of a waiting one alone, which is what the method relies on |
| `AdministrativeService.CommunicationIsRun` | src/feishu_dify_gateway/service.py:274-319 | whatever other requests do in a run meanwhile, the method ends where the run of the protocol ends, with the same ledger and answer |
| `Administrative.OneCallPerEvent` | src/feishu_dify_gateway/service.py:254-299 | `send_text` is called at most once per event id in the whole history |
| `Administrative.CallersMatchRow` | src/feishu_dify_gateway/service.py:254-283 | the call was made with the content the row records |
| `Administrative.AnswersMatchRow` | src/feishu_dify_gateway/service.py:257-319 | a conflict exactly for other content; the recorded state for a repetition; no answer says confirmed; an outcome once told is the row's ever since |
| `Administrative.RepeatIsToldOutcome` | src/feishu_dify_gateway/service.py:257-289 | a repetition that finds the outcome in the row is told exactly that |
| `Administrative.OutcomesAreFinal` | src/feishu_dify_gateway/store.py:315-347 | rows survive pruning, digests never change, the outcome is written at most once, attempts are zero exactly while prepared |
| `Administrative.LedgerIsAvailable` | src/feishu_dify_gateway/service.py:274-276 | the "ledger unavailable" branch is dead |
| `Sender.FeishuSender.AccessToken` | src/feishu_dify_gateway/feishu.py:84-127 | the double-checked refresh equals the recursive walk, whatever happens to the cache in between |
| `Sender.FeishuSender.RefreshToken` | src/feishu_dify_gateway/feishu.py:90-127 | the loop under the lock equals its recursive walk |
| `Sender.FeishuSender.SendText` | src/feishu_dify_gateway/feishu.py:129-194 | the loop equals the recursive walk; `parsed` is set wherever it is read and no trailing network error is swallowed |
| `SenderGuarantees.TokenMeaning` | src/feishu_dify_gateway/feishu.py:84-126 | a token that is used is not expired; a new one came in a 2xx reply with code 0 |
| `SenderGuarantees.SendMeaning` | src/feishu_dify_gateway/feishu.py:129-194 | a normal return means a 2xx reply with code 0 to the last post; an error is that of the last post; a 401 leaves no token |
| `SenderGuarantees.SendFailureIsRetryable` | src/feishu_dify_gateway/service.py:371-375 | a failed post is retried later exactly after a network error or a retryable status |
| `SenderGuarantees.SendTextIsBounded` | src/feishu_dify_gateway/feishu.py:129-184 | at most n posts, all of the same message, uuid included, with a token; n squared token posts; and the bound on sleeping |
| `SenderGuarantees.AuthBackoff` | src/feishu_dify_gateway/feishu.py:73-107 | without Retry-After the waits of a token loop are bounded by a geometric sum |
| `SenderGuarantees.SendBackoff` | src/feishu_dify_gateway/feishu.py:73-163 | the same for the waits between k message posts, whatever k is |
| `SenderGuarantees.SendWaits` | src/feishu_dify_gateway/feishu.py:73-163 | with any Retry-After those waits sum to at most 10 seconds each |
| `SenderGuarantees.AuthMeaning` | src/feishu_dify_gateway/feishu.py:90-127 | a token loop succeeds exactly on a 2xx reply with code 0 and a token, stored for its lifetime; its error is that of its last reply |
| `SenderGuarantees.UnexpectedIsRetried` | src/feishu_dify_gateway/service.py:371-375 | any other exception is retried later under its own code |
| `SenderRetries.SendRetries` | src/feishu_dify_gateway/feishu.py:129-194 | `send_text` posts again after a network error or one of the five statuses while it has attempts left, and after nothing else, each time with the token of that moment; the exact waits; how it ends |
| `SenderRetries.AuthRetries` | src/feishu_dify_gateway/feishu.py:91-127 | the same law for the token loop, with the error it ends in |
| `SenderRetries.WaitIsExact` | src/feishu_dify_gateway/feishu.py:73-82 | a numeric Retry-After is what is slept, within 0 and 10 seconds; otherwise base times a power of two, at most 10 |
| `SenderRetries.CacheAfterSend` | src/feishu_dify_gateway/feishu.py:155-157 | a 401 empties the token cache, any other last reply leaves it alone |
| `TokenCache.OneRefreshAtATime` | src/feishu_dify_gateway/feishu.py:87-127 | at most one caller is under the lock |
| `TokenCache.TokensAreGenuine` | src/feishu_dify_gateway/feishu.py:118-126 | every token came in a 2xx reply with code 0, has the stated lifetime, and is handed out only before its end |
| `TokenCache.ColdCacheAsksOnce` | src/feishu_dify_gateway/feishu.py:84-126 | any number of callers on a cold cache cause exactly one token request while nothing fails |
| `TokenRefinement.AccessIsRun` | src/feishu_dify_gateway/feishu.py:84-127 | what `_access_token` returns and leaves in the cache is what a run of the cache makes of it, so its token is genuine |
| `Ingress.AdministrativeIngressClient.SendMetadata` | src/feishu_dify_gateway/feishu.py:340-388 | the loop equals its recursive walk; nothing is sent without a secret |
| `Ingress.HandoffIsExact` | src/feishu_dify_gateway/feishu.py:340-388 | one payload is posted again after a network error or one of the five statuses while attempts are left, and after nothing else; the exact waits; success exactly on 202 to the last post; the refusals |
| `Routing.RouteIffFirstToken` | src/feishu_dify_gateway/feishu.py:31-45 | a text is administrative exactly if its first token is the trimmed prefix |
| `Routing.BeginningIsNotEnough` | src/feishu_dify_gateway/feishu.py:31-45 | a text that begins with the prefix is administrative exactly if whitespace or nothing follows it |
| `Routing.PaddingIsDropped` | src/feishu_dify_gateway/feishu.py:33 | the prefix counts without the blanks around it and the slashes at its end |
| `Routing.NormalizeIsIdempotent` | src/feishu_dify_gateway/feishu.py:411 | trimming the prefix twice changes nothing |
| `Routing.LanesAreExclusive` | src/feishu_dify_gateway/feishu.py:461-482 | each event takes at most one lane, decided by its first token |
| `Routing.NoPrefixNoHandoff` | src/feishu_dify_gateway/feishu.py:31-45 | a prefix of nothing but slashes routes no text to the handoff |
| `Commands.ParsePrinted` | src/feishu_dify_gateway/service.py:460-511 | action and argument are found whatever the case and the inner whitespace |
| `Commands.CommandRoundTrip` | src/feishu_dify_gateway/service.py:496-562 | each spelling of each command makes exactly its one request |
| `Commands.RequestsDiffer` | src/feishu_dify_gateway/service.py:508-562 | different commands make different requests, whatever the ids contain |
| `Commands.SpellingIsUnique` | src/feishu_dify_gateway/service.py:508-562 | no spelling stands for two commands |
| `Commands.FixedCommands` | src/feishu_dify_gateway/service.py:460-496 | the three fixed commands in any case and with whitespace around |
| `Commands.PlainTextIsTask` | src/feishu_dify_gateway/service.py:498-506 | any other text is a task with its stripped text; a blank one asks for nothing |
| `Commands.TaskCommand` | src/feishu_dify_gateway/service.py:498-506 | "/task" in any case, with any whitespace, is the task of its description |
| `Commands.BadCommandsGetUsage` | src/feishu_dify_gateway/service.py:508-574 | the usage text exactly for unknown words and missing arguments |
| `Commands.BadSettingsGetPolicyUsage` | src/feishu_dify_gateway/service.py:535-545 | the policy usage text exactly for a missing or bad setting |

## Left out

- HTTP servers and clients, the middleware, the Lark thread and SQLite: the store is maps with atomic statements, the network is whatever it likes to be.
- The bodies of SHA-256, HMAC (section 2 of RFC 2104) and version 5 uuids, and constant-time comparison.
- JSON and model validation, `_format_alert`, Prometheus queries, logging, configuration, deploy scripts, the cloud relay.
- `extract_feishu_event_metadata` and `provider_envelope`: the handoff payload is one opaque text.
- The conversation table and `mark_administrative_communication_failed`: nothing in the service calls them. The second would put a row in a status that pruning removes, and with it the at-most-once guarantee.
- The chat answers: what the control plane, the monitor and the fixed help texts say is a parameter of `handle_feishu_text`.
- `Sender.FeishuSender.SendText`: the time is what it was at the end of the last `await`; waiting for the token lock is one turn of the other tasks and is not counted as sleep.
- `Service.GatewayService.Attempt`: `deliver_notification` and `deliver_alerts` repeat this code; here it is one method for both.
- `Guarantees.RecipientSeesMessageOnce`: relies on a provider that never forgets a name.
- `Metrics.AttemptsAreConserved`: of the metrics only the delivery attempt counters are modelled, each at its neighbouring statement.
- Lower-casing is that of ASCII and the Kelvin sign, which is all that a comparison with the commands and hex digits can tell.
- Retry-After as a date: the code reads only numbers and otherwise keeps its own delay.
