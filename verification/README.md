# Verified model of django-mpesa

django-mpesa receives payment callbacks from Safaricom, which may deliver the same callback many
times and concurrently, and promises that every transaction settles exactly once. It also shares one
OAuth token among all callers through a cache with a lock, and retries its own requests. This project
models those three protocols in Dafny and proves what they keep over every run.

`dafny verify dfyconfig.toml` checks everything.

| file | contents |
|---|---|
| `Models.dfy`, `Payloads.dfy` | rows, keys, callback bodies; parsing a body into the locals of a task |
| `Settlement.dfy` | what one task does when it runs alone; the table as a fold of events |
| `Requirements.dfy` | what each callback requires, by the fields of its body alone, and that the tasks do exactly that |
| `Store.dfy` | the tasks, views and services in imperative form, proved against `Settlement` and `Requirements` |
| `Paths.dfy` | sequences of steps of any transition system |
| `Protocol.dfy`, `ProtocolInvariant.dfy` | any number of concurrent workers as a transition system, and its inductive invariant |
| `ProtocolSafety.dfy` | frozen rows, one settlement and one truthful signal per row, conservation of signals |
| `Deliveries.dfy`, `Linearisation.dfy` | first delivery wins; interleaved runs equal a sequential replay |
| `Outcomes.dfy` | every column of every settled row of every run, by the body behind it |
| `Progress.dfy`, `LogBook.dfy`, `SoloRuns.dfy` | deadlock freedom and termination; callback logs; a lone worker equals the sequential task |
| `C2bOnce.dfy`, `C2bOverlap.dfy` | C2B once per TransID, and its exact condition |
| `C2bSnapshot.dfy`, `C2bSerial.dfy` | when a C2B commit is the sequential one; which row and which amount each payment ends on |
| `TokenCache.dfy`, `TokenCalls.dfy` | `get_token` imperatively; what one call does, returns and waits for |
| `TokenProtocol.dfy`, `LockExpiry.dfy` | any number of callers of `get_token`; the exact condition of its lock |
| `Client.dfy`, `Reauthentication.dfy` | `post`: bounded retries inside a one-shot re-authentication, and with the get_token calls around it |

## How the code is modelled

- Tables are sequences that only grow; a primary key is a position. A worker's program counter lies
  between two database statements, so every interleaving of statements is a run. An atomic block
  keeps its writes private until `Commit`; `Abort` rolls back, `Crash` may strike anywhere, also
  between commit and signal. `Dispatch` may be repeated for a log, which covers reruns.
- Row locks and statement snapshots are those of READ COMMITTED in PostgreSQL: `select_for_update`
  waits for the lock and sees the newest committed row; the C2B query takes its candidates from one
  snapshot and skips those that no longer qualify once locked.
- `history`, `owner`, `issued`, `fetched`, `stored`, `lost`, `removed`, and `setter` and `grant` of a cache
  entry record the past. No step's choice depends on them.
- `ResultCode` is a JSON value. Success is Python's `== 0`, so the number 0 or False; the text "0"
  settles as FAILED while the integer column stores 0, and a text that is no integer makes `save()`
  raise, so that delivery settles nothing (`Deliveries.FirstOnlyIsEnoughIff` gives the exact
  consequence).
- The four tasks are plain functions (`_make_task` is never applied), so with `USE_CELERY` on, the
  default, the view's `.delay` call raises AttributeError, the view swallows it, and the log stays
  unprocessed. docs/callbacks.md says a Celery task is started; the model follows the code
  (`Store.Database.Receive`).
- docs/callbacks.md also promises exactly-once settlement without conditions. For C2B the receipt is
  looked up without a lock and is not unique. `C2bOnce.C2bAtMostOnce` holds as long as confirmations
  of that TransID do not overlap in the atomic block, and `C2bOverlap.OverlapIsTheExactCondition`
  shows that nothing weaker would do: every overlap can go on to two settled rows.
- An STK or B2C callback that overtakes the insertion of its row, which specs/design.md foresees, finds
  no row and is used up: `Linearisation.SettledIff` gives the exact condition for a row to be settled,
  and `LogBook.EarlyCallbackIsUsedUp` reaches a row that stays PENDING.
- A C2B confirmation settles a waiting row without comparing the amounts. `C2bSerial.AmountsAgreeIff`
  says when the row holds what was paid.
- The lock in the token cache expires after 10 seconds while a fetch may take 30.
  `TokenProtocol.MutualExclusion` holds as long as every section ends before its own lock expires, and
  `LockExpiry.InTimeIsTheExactCondition` shows that every section that does not can lose the lock.
  Freshness of cached tokens and the ban on rejected tokens do not need the assumption.
- The docstring of `get_token` says that concurrent callers wait for the lock and then get a cache
  hit. They wait for five sleeps of 0.1 seconds: `TokenCalls.WaitersGiveUpIff` gives the exact
  condition, and a fetch that takes longer makes them raise.
- models.py explains result code 0 as success. A text "0" is stored as 0 but settles as FAILED;
  `LogBook.CodeZeroFailsIff` says that this is the only way.
- A get_token call in imperative form runs in surroundings given turn by turn: what others make of the
  cache before each of its operations, the time, and the endpoint's answer. Any behaviour of other
  processes is such a sequence.
- The clock, the OAuth endpoint, the replies of Daraja and the actions of other processes are
  inputs or arbitrary steps.

## Model

| member | source | states |
|---|---|---|
| `Payloads.ScanFindsTheFirst` | django_mpesa/tasks.py:98-103 | the first metadata entry of the wanted name decides, wherever it is, if only dicts precede it |
| `Payloads.ScanWithoutTheName` | django_mpesa/tasks.py:210-217 | without such an entry the scan yields nothing, and raises exactly when some element is no dict |
| `Payloads.ParseIsSound` | django_mpesa/tasks.py:82-103 | a parsed job belongs to its task, has that task's kind of key, and carries a receipt only when the code is zero |
| `Settlement.SettleKeepsRowOk` | django_mpesa/tasks.py:135-143 | settling keeps the row well formed, makes it terminal, and makes the signal chosen from the task's locals true of the row |
| `Requirements.ScanTellsEntries` | django_mpesa/tasks.py:98-103 | looking for a name raises exactly when there is something that is no dict before any entry of that name, and otherwise finds the value of the first such entry |
| `Requirements.TasksMeetTheRequirements` | django_mpesa/tasks.py:62-442 | on any database, log and time each task does what its callback requires, said by the fields of the body and literal names and messages: which log update, which row, every column of that row, which signal with what in it, or an exception |
| `Requirements.RequiredIff` | django_mpesa/tasks.py:62-442 | with unique keys, and without ties among waiting C2B rows, those requirements admit exactly what the task does |
| `Requirements.EmptyBodiesAreHandled` | django_mpesa/views.py:61-64 | a request that is no dict: the STK and B2C tasks note what is missing, and the C2B task creates a payment of 0 from 000000000000 for UNKNOWN unless a row without reference was waiting |
| `Store.Database.ScanForReceipt` | django_mpesa/tasks.py:97-103 | the loop over metadata items with a mutable receipt computes the scan |
| `Store.Database.ProcessStkCallback` | django_mpesa/tasks.py:62-175 | the task, updating loaded objects in place, does what the callback requires: the row with that CheckoutRequestID gets status, code, description, time, payload and, on code zero, the value of the first entry named MpesaReceiptNumber; and it equals the sequential semantics, raising exactly when that raises |
| `Store.Database.ProcessB2cResult` | django_mpesa/tasks.py:182-277 | the same for B2C results: on code zero the receipt is the value of the first entry named TransactionReceipt, else the TransactionID, else unchanged |
| `Store.Database.ProcessB2cTimeout` | django_mpesa/tasks.py:284-350 | the same for B2C timeouts: TIMEOUT with its fixed description, code and receipt untouched |
| `Store.Database.ProcessC2bConfirmation` | django_mpesa/tasks.py:357-442 | the same for C2B: skip recorded receipts, settle the newest waiting row, else create one with the phone, amount and reference of the body or their defaults |
| `Store.Database.Receive` | django_mpesa/views.py:37-80 | the body is logged in every case (an empty dict for a non-dict); it is processed exactly when Celery is off; nothing is raised |
| `Store.Database.Insert` | django_mpesa/models.py:129-150 | insertion succeeds exactly when no unique key collides, keeps the table well formed, and otherwise changes nothing |
| `Store.Database.Initiate` | django_mpesa/services/stk_push.py:107-137 | one PENDING row with the checkout id, phone, amount and reference given, and nothing known of the outcome, appears exactly when Daraja accepted, named a checkout id, and no row has it; otherwise nothing changes |
| `Store.Database.SendPayment` | django_mpesa/services/b2c.py:100-127 | the same for payouts, keyed by conversation id, with the phone as reference |
| `ProtocolInvariant.StepKeepsInv` | django_mpesa/tasks.py:105-147 | every step of every worker and of the environment keeps unique keys, well-formed rows, exact lock ownership, true snapshots under lock, one settler per terminal row, and the replay equation |
| `ProtocolInvariant.StepEvolves` | django_mpesa/tasks.py:123-143 | one step moves one worker, never changes a terminal row, nor a row another worker has locked, nor who settled a row |
| `ProtocolInvariant.SettleIsDelivery` | django_mpesa/tasks.py:108-143 | overwriting the locked row equals the key-driven sequential delivery |
| `ProtocolSafety.RunExtends` | django_mpesa/tasks.py:124-143 | between any two points of any run: terminal rows keep every field, no row changes identity or amount, logs are never removed, their bodies never change, processed never goes back |
| `ProtocolSafety.SettledAtMostOnce` | django_mpesa/tasks.py:123-143 | in any interleaved run with rollbacks, reruns and crashes a row becomes terminal in at most one step |
| `ProtocolSafety.SignalTellsTheTruth` | django_mpesa/tasks.py:263-273 | when a worker signals from its locals after releasing the lock, the committed row is terminal and agrees with the signal, then and ever after, although result and timeout race |
| `ProtocolSafety.SignalledAtMostOnce` | django_mpesa/tasks.py:157-175 | at most one signal per row, and every signal sent is still true |
| `ProtocolSafety.SignalsAreConserved` | django_mpesa/tasks.py:145-175 | at every point signals sent plus settled rows still owed one equals settled rows |
| `ProtocolSafety.CompletedRunsSignalEverything` | django_mpesa/tasks.py:157-175 | a completed run has as many signals as settled rows if and only if no worker died between its commit and its signal, and then each settled row has its signal |
| `ProtocolSafety.LostSignalsStayLost` | django_mpesa/tasks.py:145-175 | the row of a worker that died between commit and signal has no signal in any state of the run, before or after, whatever is rerun |
| `ProtocolSafety.SignalsCanBeLost` | django_mpesa/tasks.py:157-163 | and every signal still to be sent can be lost so |
| `Deliveries.FirstDeliveryWins` | django_mpesa/tasks.py:107-143 | after any sequence of deliveries each row is what its own first storable delivery made of it |
| `Deliveries.InterleavingIsInvisible` | django_mpesa/tasks.py:107-143 | sequences that agree key by key give the same table, however the keys are interleaved |
| `Deliveries.SwapIsInvisible` | django_mpesa/tasks.py:223-249 | swapping adjacent deliveries of different keys anywhere changes nothing |
| `Deliveries.DuplicatesAreInvisible` | django_mpesa/tasks.py:307-325 | dropping all repeats of keys that had a storable delivery changes nothing |
| `Deliveries.FirstOnlyIsEnoughIff` | django_mpesa/tasks.py:124-143 | keeping only the very first delivery of each key gives the same table if and only if no unsettled row has an unstorable first delivery followed by a storable one |
| `Deliveries.UnstorableFirstDelivery` | django_mpesa/tasks.py:136-143 | two callbacks with ResultCode "abc" and then 0 on a concrete table: running both tasks settles the row as SUCCESS, while the very first delivery alone leaves it PENDING |
| `Deliveries.TasksAreDeliveries` | django_mpesa/tasks.py:73-147 | running STK and B2C tasks one after the other, on any logs with any reruns, does to the table what delivering their parsed bodies does, so all of the above holds of the tasks |
| `Deliveries.ClocksOnlyStampRows` | django_mpesa/tasks.py:139 | the times of processing show in settled_at and nowhere else |
| `Linearisation.RunsAreLinearisable` | django_mpesa/tasks.py:105-147 | the committed table of every interleaved run is the replay, in commit order, of the events its steps emitted; every event fits the table its predecessors made and names a logged body and its parse, a C2B event holding exactly the row its body makes of a waiting row or of none; a worker emits at most one, and each that decided on a keyed job emitted that job's delivery at some step |
| `Linearisation.RowStory` | django_mpesa/tasks.py:107-143 | in such a replay each STK or B2C row is its inserted row settled by the first storable delivery since |
| `Linearisation.RowsHaveStories` | django_mpesa/tasks.py:107-143 | hence each committed STK or B2C row of every interleaved run is its inserted row settled by the first storable delivery the run emitted for its key since |
| `Linearisation.SettledIff` | django_mpesa/tasks.py:107-143 | in every run an STK or B2C row is settled if and only if some storable delivery of its key was emitted after the row was inserted |
| `Linearisation.ReachableTablesAreWellFormed` | django_mpesa/models.py:129-150 | every reachable table: unique keys, settled_at exactly on terminal rows, receipts only on SUCCESS, result code 0 on STK and B2C successes |
| `Progress.NoDeadlock` | django_mpesa/tasks.py:107-155 | in every reachable state each unfinished worker, or the holder of the one lock it waits for, has an enabled step |
| `Progress.CompletedRunsHoldNoLocks` | django_mpesa/tasks.py:107-155 | a completed run leaves no row locked |
| `Progress.WorkRunsOut` | django_mpesa/tasks.py:105-175 | every worker step lowers a well-founded measure over all workers; only dispatching raises it |
| `Outcomes.SettledRowsTellTheirBodies` | django_mpesa/tasks.py:105-147 | in every interleaved run, for every settled row, STK, B2C or C2B, settled or created: one worker decided, at the time in settled_at, and later committed; column by column the row is what the body of that worker's log makes of the row as it was at the commit; and no other log names it |
| `LogBook.NamedByExactlyOneLog` | django_mpesa/tasks.py:145-147 | each settled STK or B2C row is named by exactly one log, and its status, code, description, payload and receipt are those of that log's body |
| `LogBook.LogsTellTheOutcome` | django_mpesa/tasks.py:118-147 | a processed STK or B2C log has a terminal row of its key, a processed C2B log with a TransID has it on record; a task that returned left its log processed or with an error |
| `LogBook.CodeZeroFailsIff` | django_mpesa/models.py:183-187 | in every run a settled STK or B2C row has result code 0 without being SUCCESS if and only if the body of the log that names it gave the code as a text that int() reads as 0 |
| `LogBook.TextZeroFails` | django_mpesa/tasks.py:136-137 | the body with ResultCode "0" that leads to a reachable FAILED row with result code 0 |
| `LogBook.EarlyCallbackIsUsedUp` | django_mpesa/tasks.py:108-122 | a reachable state in which a success callback came before its row was inserted: its task has returned with an error in the log, and the row is PENDING |
| `SoloRuns.SoloRunIsTheTask` | django_mpesa/tasks.py:62-175 | a worker with the unlocked database to itself can finish and has then done exactly what the sequential task does, raising exactly if that raises |
| `C2bOnce.C2bAtMostOnce` | django_mpesa/tasks.py:384-438 | if no two workers are in the block for this TransID at once, at most one C2B row and one signal ever exist for it, whatever other TransIDs do |
| `C2bOnce.C2bExactlyOnce` | django_mpesa/tasks.py:386-426 | a processed confirmation has its TransID on a SUCCESS row, and under the same hypothesis no two C2B rows carry that TransID |
| `C2bOverlap.OverlapIsTheExactCondition` | django_mpesa/tasks.py:386-422 | at the first point of any run at which it is in question, the workers under way can settle two rows for a TransID, nobody else passing the receipt check, if and only if two of them are in the block for it |
| `C2bOverlap.OverlapCanSettleTwice` | django_mpesa/tasks.py:396-422 | from every state that satisfies the invariant, with any other workers, locks and rows: two workers in the block for one TransID can go on to settle a row each |
| `C2bOverlap.OverlapSettlesTwice` | django_mpesa/tasks.py:386-422 | an instance from the empty database: two deliveries of one confirmation reach two SUCCESS rows with its TransID as receipt |
| `C2bSnapshot.CommitIsSequentialIff` | django_mpesa/tasks.py:386-422 | in every state that satisfies the invariant, a C2B commit leaves the table the sequential task would leave if and only if its TransID is not on record by then and its row is still the newest one waiting (or still none waits) |
| `C2bSnapshot.SnapshotsGoStale` | django_mpesa/tasks.py:397-412 | a reachable state in which it is not: a waiting row was inserted after the query found none |
| `C2bSerial.RepeatsAreInvisible` | django_mpesa/tasks.py:387-394 | confirmations of recorded or earlier non-empty TransIDs change nothing |
| `C2bSerial.MatchingIsExact` | django_mpesa/tasks.py:396-422 | n new TransIDs against p waiting rows of the reference: min(n, p) are settled with amounts unchanged, n - min(n, p) rows are created, totalling the amounts of the unmatched confirmations |
| `C2bSerial.PlacingIsExact` | django_mpesa/tasks.py:397-422 | with confirmations of any other references interleaved: of those of one reference the first min(n, p) take its p waiting rows, each the newest left; the others create rows of their amounts in their order; each TransID ends on its own row, the only one carrying it; p - min(n, p) rows stay waiting |
| `C2bSerial.CreatedInARow` | django_mpesa/tasks.py:410-422 | without other references the created rows follow the table directly, one after another |
| `C2bSerial.AmountsAgreeIff` | django_mpesa/tasks.py:403-409 | the row of a confirmation holds the amount paid if and only if it was created, or was waiting for that very amount |
| `C2bSerial.AmountsMissByTheMatched` | django_mpesa/tasks.py:403-417 | the amounts on record for a reference differ from the amounts paid by exactly what the matched rows differ by |
| `C2bSerial.OneForAHundred` | django_mpesa/tasks.py:403-409 | a payment of 1.0 turns a PENDING row of 100.0 into a SUCCESS row of 100.0 |
| `C2bSerial.MatchingWithRepeats` | django_mpesa/tasks.py:379-422 | `MatchingIsExact` with repeats and recorded TransIDs mixed in anywhere |
| `C2bSerial.PaymentsLandOnce` | django_mpesa/tasks.py:387-422 | `PlacingIsExact` for every reference of every sequence, with repeats, recorded and empty TransIDs mixed in: each counted TransID ends on exactly one row |
| `C2bSerial.AmountsAgreeIffWithRepeats` | django_mpesa/tasks.py:387-422 | `AmountsAgreeIff` for every sequence likewise |
| `C2bSerial.EmptyTransIdIsNeverARepeat` | django_mpesa/tasks.py:389-391 | a confirmation without TransID always settles or creates a row |
| `TokenCache.TokenManager.GetToken` | django_mpesa/client/auth.py:38-82 | whatever other callers make of the cache before each of its operations, the call leaves the cache and returns the result that its program, run operation by operation on the cache it meets, ends with |
| `TokenCalls.CallsAreBounded` | django_mpesa/client/auth.py:55-82 | every call ends within fourteen operations: at most five refused locks, one lock, one fetch, every lock given back, a fetched and returned token stored, and a raise only after five refusals or one failed fetch |
| `TokenCalls.ReturnedTokensAreReal` | django_mpesa/client/auth.py:50-69 | a returned token was met live in the cache by this call, or the endpoint answered this call with it and status 200, and the call left it in the cache readable for one second, or for expires_in less the buffer if that is longer, and no longer |
| `TokenCalls.FetchOutcome` | django_mpesa/client/auth.py:119-137 | a fetch makes the call return the token exactly on status 200 with a token that is not empty and a lifetime that int() accepts; otherwise it raises |
| `TokenCalls.HitsAreImmediate` | django_mpesa/client/auth.py:50-53 | a call that meets a token in the cache returns it after that one operation |
| `TokenProtocol.StoredTokenIsServedIff` | django_mpesa/client/auth.py:66-69 | after a store that nobody invalidates or replaces, a new call is served that token without a fetch if and only if it begins within one second, or within expires_in less the buffer |
| `TokenCalls.WaitersGiveUpIff` | django_mpesa/client/auth.py:56-82 | a caller that finds the lock taken gets the token its holder stores if and only if it is stored by the caller's sixth read; otherwise the call raises |
| `TokenCalls.HalfASecondOfPatience` | django_mpesa/client/auth.py:42-44 | if only the sleeps take time, that is half a second after the caller's arrival |
| `TokenProtocol.ActIsOneOperation` | django_mpesa/client/auth.py:50-82 | a step of a client in the protocol of many callers is one operation of the imperative call in the same surroundings |
| `TokenProtocol.MutualExclusion` | django_mpesa/client/auth.py:56-71 | if sections end before their own lock expires, no two callers are in the section |
| `TokenProtocol.LockIsPresentIff` | django_mpesa/client/auth.py:56-71 | then the lock key is present exactly while one caller is inside, or crashed inside with time left, and there is never more than one |
| `TokenProtocol.DeleteRemovesOwnLock` | django_mpesa/client/auth.py:70-71 | then the unconditional delete removes the deleting caller's own lock |
| `TokenProtocol.NoLockRemains` | django_mpesa/client/auth.py:70-71 | then, once all have returned or raised, no lock is present |
| `TokenProtocol.FetchesAreBounded` | django_mpesa/client/auth.py:50-77 | then tokens stored equal tokens removed plus the cached one, and fetches exceed removals by at most one unless a crash loses a token |
| `TokenProtocol.CachedTokensAreFresh` | django_mpesa/client/auth.py:66-69 | a token read from the cache stays valid for more than min(buffer, expires_in - 1) less the delay between issue and store, with no hypothesis |
| `TokenProtocol.RejectedTokenIsNotReused` | django_mpesa/client/base.py:105-108 | a client that gets its rejected token again after a 401 got one that the endpoint has handed out twice, whatever happened to other tokens and even when mutual exclusion is broken |
| `TokenProtocol.RepeatedTokenIsReused` | django_mpesa/client/auth.py:66-69 | and an endpoint that hands out the rejected token twice can make the client use it again, from every state in which it fetches |
| `LockExpiry.InTimeIsTheExactCondition` | django_mpesa/client/auth.py:56-71 | at the first point of any run at which it is in question: two callers can be inside without the clock moving, if and only if one can be inside without a lock, if and only if more tokens can be fetched than the bound, if and only if some section has outlived its own lock |
| `LockExpiry.OutlivedLockFails` | django_mpesa/client/auth.py:70-71 | from every state in which a caller inside has outlived its own lock: another gets in, then the latecomer's delete takes that one's lock away, then two fetch |
| `LockExpiry.SlowFetchBreaksTheLock` | django_mpesa/client/auth.py:102-111 | an instance from the empty cache: a fetch of eleven seconds reaches all three |
| `Client.DarajaClient.ExecuteWithRetries` | django_mpesa/client/base.py:151-201 | the loop ends at the first reply that is no server error, or after all retries, with the doubling waits in between |
| `Client.DarajaClient.PostWithAuth` | django_mpesa/client/base.py:85-149 | one pass, or two around a single invalidation, with result or error class, tokens sent and cost as specified |
| `Client.DarajaClient.Post` | django_mpesa/client/base.py:65-83 | on every stream of replies and tokens post costs what its specification says, and ends as the last reply tells: rate limit on 429, auth error on a missing token or a last 401, timeout, transport error, API error with the status from 400 on or on a body that is no JSON or has an errorCode, else the data |
| `Client.RepliesTellTheOutcome` | django_mpesa/client/base.py:85-149 | the outcome class if and only if, by status numbers and bodies, with the numbers of requests, tokens, invalidations and seconds asleep; passes end where the replies say: after server errors within the budget, at the first reply below 500 or the last allowed |
| `Client.PostRefinesTheStream` | django_mpesa/client/base.py:85-149 | that specification equals a reply-by-reply reading: skip server errors within budget, restart once on 401 with a fresh budget, send nothing after anything else |
| `Client.ResendsUseTheNewToken` | django_mpesa/client/base.py:105-108 | requests after the 401 carry the second token, those before it the first |
| `Reauthentication.GotIffMet` | django_mpesa/client/auth.py:46-77 | a get_token call returns a token if and only if one of its operations reads it from the cache or receives it from the endpoint |
| `Reauthentication.ResentTokenIff` | django_mpesa/client/base.py:85-108 | for a post whose tokens are two get_token calls around an invalidation: a re-sent request carries the rejected token if and only if the second call meets that token |
| `Reauthentication.RejectedTokenIsSentOnlyBefore` | django_mpesa/client/base.py:105-108 | so a post sends the rejected token up to the 401 and never after, as long as no other caller puts it back and the endpoint does not hand it out again |
| `Client.CostIsBounded` | django_mpesa/client/base.py:167-201 | at most 2(M+1) requests, two tokens, one invalidation, 2B(2^M - 1) seconds of back-off |
| `Client.CostIsAttained` | django_mpesa/client/base.py:167-201 | one stream attains all these bounds, for every M and B |

## Left out

- Linearisation.RunsAreLinearisable: a C2B event settles the waiting row its worker had locked, or creates one, as its body says; that this is the row the sequential task would choose at that point is not promised, because the choice rests on a snapshot. `C2bSnapshot.CommitIsSequentialIff` says when it is, and `C2bOnce`, `C2bOverlap` and `C2bSerial` treat the rest.
- C2bOnce.C2bAtMostOnce: assumes confirmations of the TransID do not overlap in the atomic block; `C2bOverlap.OverlapIsTheExactCondition` proves that every overlap can settle twice. An empty TransID identifies no payment and is never looked up.
- TokenProtocol.MutualExclusion: assumes sections end before their lock expires, which nothing in the code enforces; `LockExpiry.InTimeIsTheExactCondition` proves the failure otherwise.
- Receivers of signals: sending is one event; `send` stops at the first receiver that raises.
- Celery decoration and broker retries: not wired; a rerun is a repeated dispatch.
- Validation of service arguments, password building, HTTP sessions, JSON decoding, logging and redaction.
- The C2B validation view, queries, reversal, account balance and transaction status: no stored state of transactions changes.
- Statuses PROCESSING and REVERSED and `idempotency_locked`: no task sets them.
- Row fields `merchant_request_id`, `originator_conversation_id` and `transaction_desc`, which nothing reads back.
- Database limits on lengths and integer ranges: such a failure is an `Abort` step.
- Row locks on log rows: log updates become visible with their commit, so these locks order commits only.
- Keys, receipts and references that are not texts in the JSON, fractional result codes, and amounts such as NaN that Decimal accepts without being numbers.
- Ties in `initiated_at`: any order in the protocol, the later row first in the sequential tasks.
- A log id that names no log: handled by the sequential tasks, never dispatched in the protocol.
- MAX_RETRIES below zero, for which the client would fail on a missing response; exceptions of `get_token` other than DarajaAuthError are not told apart.
