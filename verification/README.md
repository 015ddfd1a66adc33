# Verified model of the HStong OpenAPI SDK cores

This project models the stateful cores of the Go SDK `hstongapi4go` and proves what they are for.
`dafny verify dfyconfig.toml` checks all of it.

- **Login single flight** (`Auth`, `LoginGate`, `TokenManager`, `LoginProtocol`, `LoginShape`,
  `LoginSafety`, `LoginProgress`, `LoginQueue`, `LoginSessions`, `LoginStory`, `LoginOutcomes`,
  `LoginCallers`). Any number of `Login` and `Logout` calls for any number of accounts interleave, one
  step per critical section, store call or channel operation. The store may fail at any step and the
  clock only goes forward. A step that is blocked changes nothing, so every sequence of actions is a
  run. The log records what the environment answered, and no step reads it. `LoginShape` is the
  structural invariant, `LoginSafety` the accounting of accepted logins, `LoginProgress` that a leader
  finishes, `LoginQueue` the count of waiting callers, `LoginSessions` whose session is returned.
  `LoginStory` says from the log alone what an attempt earned, `LoginOutcomes` proves that this is what
  it publishes, and `LoginCallers` what callers outside the gate are answered.
- **Condition-variable login** (`SessionManager`): the second implementation, with its state
  machine, over runs of Login, EnsureLoggedIn, ReLogin and Logout calls.
- **Push registry** (`PushKeys`, `PushRouting`, `PushRegistry`, `PushInvariant`, `PushRuns`,
  `PushOrchestration`): canonical keys, the routing index, coalesced subscriptions, teardown on a
  refused renewal, close and dispatch. `PushOrchestration` is the mutable object and refines the
  registry value step by step. `OrderPush` is the session-wide order count.
- **Delivery** (`PushDelivery`, `PushFeed`): bounded lossy channels with a receiver that may run
  between any two operations of the sender.
- **Wire frames** (`Frame`, `FrameStream`, `FrameIO`): the 151-byte header and the frame stream.
- **Resilience** (`RateLimit`, `Limiter`, `Breaker`, `Routes`, `Retry`, `Execute`): token buckets and
  their composition, the circuit breaker, retries, and the guarded call that combines them.
- **Cursor walk and prices** (`FundJournal`, `PriceBands`).
- `Prelude` and `Lists` hold shared values and list facts.

Code that changes state in place is modelled by classes and methods; each method is tied to a
function on values, and the laws are proved of runs of those functions. Pointers to shared records
(attempts, channels, entries, subscriptions) are positions in a growing list.

Where a law fails for part of the inputs, the code is kept, the exact condition is proved and a
failing case is exhibited:

| law | exact condition | failing case |
|---|---|---|
| one login at a time | `SessionManager.OneLoginAtATimeIff` | `SessionManager.LogoutMayDoubleTheLogin` |
| a waiter returns its own login | `SessionManager.WaiterReturnsItsLoginIff` | `SessionManager.WaiterMayMissItsLogin`, `SessionManager.LogoutMayHideAFailure` |
| the gate counts waiting callers | `LoginQueue.WaitingCountsTheComers` | `LoginQueue.WaitingMayOvercount` |
| a list's keys are its own | `PushKeys.CollidesIff`, for every admitted list; `PushKeys.KeysEqualIff` gives a condition on codes that is enough | `PushKeys.CollidesApart`, for every list that collides |
| subscribing keeps the index exact | `PushInvariant.SubscribeKeepsInvIff`, `PushRuns.RunIsSafeIff` | `PushRuns.MisroutesIff`, for every first list that collides |
| teardown keeps the registry | `PushInvariant.KillKeepsInvIff` | `PushRuns.KillMayOrphan` |
| the order count | `OrderPush.DetachKeepsCountIff` | `OrderPush.OverlappingCancelsMiscount` |
| drops are losses | `PushFeed.DroppedOvercountsIff` | `PushFeed.DroppedMayOvercount` |
| uncapped delays double | `Retry.UncappedDelayIff` | `Retry.UncappedDelayMayCollapse` |
| rounding goes down | `PriceBands.RoundsDownIff` | `PriceBands.RoundingMayCarry` |

## Where code and comments disagree

The model follows the code.

- `pkg/services/session.go:439-441` says a refused credential discards the held session;
  `sessionUnusable` (726-731) does not include it.
- `pkg/services/session.go:478-488` says an error reading the session back is dropped;
  `internal/auth/authenticator.go:82-91` returns it.
- `pkg/services/session.go:220-227`: a joiner that gives up stays in the waiting count
  (`LoginQueue.WaitingCountsTheComers`).
- `pkg/hstong/session.go:202-205` promises a waiter the outcome of the login it waited for; it may
  return that of a later one.
- `internal/push/frame.go:162-166` promises EOF only when nothing was read; a stream that ends right
  after a header gives EOF too.
- `internal/resilience/retry.go:124-129`: jitter takes a value from the upper half of the delay
  instead of adding up to the delay, and without a cap an overflowing delay becomes MaxBackoff.
- `pkg/services/push.go:1254-1288`: `Dropped` may exceed the number of updates lost.

## Model

| member | source | states |
|---|---|---|
| `LoginGate.LoginGate.Begin` | pkg/services/session.go:200-210 | A caller leads a fresh attempt exactly when none is pending for the account, otherwise it is handed the pending one and counted; nothing else changes |
| `LoginGate.LoginGate.Waiting` | pkg/services/session.go:220-227 | Reports the count the gate keeps for the account's pending attempt, 0 without one |
| `LoginQueue.WaitingCountsTheComers` | pkg/services/session.go:213-227 | In every run that count is the calls now queued on the attempt plus those that gave up on it, so it is the number queued exactly when none gave up; without a pending attempt nobody is blocked |
| `LoginQueue.WaitingMayOvercount` | pkg/services/session.go:213-227 | For any account without a session, a run in which one caller is reported as waiting and nobody is |
| `LoginGate.LoginGate.Publish` | pkg/services/session.go:236-242 | Records the outcome, closes the attempt's channel once and frees the account |
| `LoginGate.PublishKeepsValid` | pkg/services/session.go:236-242 | Publishing the pending attempt keeps every pending attempt open and every other one closed exactly once |
| `TokenManager.TokenManager.BeginLogin` | internal/auth/token_manager.go:113-123 | The first caller leads with a fresh channel, later callers get the same channel |
| `TokenManager.TokenManager.EndLogin` | internal/auth/token_manager.go:132-141 | Ends the account's flight and closes its channel, leaving every other flight alone |
| `TokenManager.BeginKeepsValid` | internal/auth/token_manager.go:113-123 | `pending` and `flights` keep the same accounts; a channel is open exactly while it is its account's flight and closed once otherwise |
| `TokenManager.EndKeepsValid` | internal/auth/token_manager.go:132-141 | The same through an end, also one without a flight |
| `TokenManager.EndUndoesBegin` | internal/auth/token_manager.go:113-141 | A flight leaves nothing behind but one closed channel |
| `LoginShape.ApplyKeepsShape` | pkg/services/session.go:596-705 | Every step keeps the structural invariant linking callers, gate attempts and inner flights |
| `LoginShape.InnerBeginKeepsShape` | internal/auth/authenticator.go:45-73 | A gate leader always leads the inner flight: the inner joiner path is never taken |
| `LoginSafety.ApplyKeepsSafe` | pkg/services/session.go:596-705 | Every step keeps all accepted logins accounted for: excused, covered by the session the store holds, or owned by the account's leader; sessions are saved in the order of their refresh times |
| `LoginSafety.RunIsSafe` | pkg/services/session.go:460-705 | Hence every reachable state of every interleaving is safe |
| `LoginSafety.OneRequestPerSession` | pkg/services/session.go:596-680 | Between an accepted login and a later request for the same account that login's session was saved, and is due for refresh when the request goes out or was cleared by a Logout after the save; or else the store failed its save or the requester's re-read, or an attempt it had failed discarded the saved session. If the store never failed the account, one of the first two |
| `LoginSafety.DiscardsOnlyDeadSessions` | pkg/services/session.go:697-705 | A discarded session was already due for refresh when its leader re-read the store, unless the store failed on that leader |
| `LoginSafety.OneLeaderPerAccount` | pkg/services/session.go:636-658 | One leader per account at any time, and it never waits on the inner flight |
| `LoginSafety.ChannelsClosedOnce` | internal/auth/token_manager.go:113-141 | In every run `pending` and `flights` have equal key sets, and every channel of either layer is open while it is its account's current one and closed exactly once otherwise |
| `LoginSafety.JoinersAreServed` | pkg/services/session.go:636-658 | The attempt a joiner waits for is led by a call that has not returned, or is published and the joiner's next step returns its outcome |
| `LoginProgress.LeadersFinish` | pkg/services/session.go:636-680 | From every reachable state a leader that gets eleven more turns, whatever else happens, has published its attempt and returned its outcome |
| `LoginSafety.JoinersShareTheOutcome` | pkg/services/session.go:636-658 | All calls that led or joined one attempt return the same result |
| `LoginSessions.LoginReturnsItsOwnSession` | pkg/services/session.go:460-494 | A Login that succeeds returns a session of its own account; the check for a session of no account never fires |
| `LoginOutcomes.OutcomeIsEarned` | internal/auth/authenticator.go:45-91 | In every run an attempt published an outcome if and only if its events earned that one: success with `x` when its leader's re-read held `x` live, or when it saved `x` with the token the Gateway gave it and read it back with no fault and no Logout in between; otherwise the very error of the encryption, the Gateway, the save or the read-back, or that the session was gone |
| `LoginCallers.LoginReturnsWhatWasEarned` | pkg/services/session.go:460-494 | A Login that led or joined an attempt returns exactly what the attempt earned in that sense |
| `LoginCallers.ReusesOnlyLiveSessions` | pkg/services/session.go:460-475 | A Login that answers from the store found that session in it and then found it live; one that fails there had an invalid argument or the store's own error; one that comes to the gate had found nothing live |
| `LoginOutcomes.StoreIsLogged` | internal/auth/token_manager.go:67-84 | In every run the store holds for each account what was last saved for it and not discarded or cleared by a Logout since |
| `LoginOutcomes.UnusableIsDiscarded` | pkg/services/session.go:697-731 | An attempt failed with an error of the account category exactly when its leader discarded the stored session, or the store failed that clear; after a discard the account is out of the store until something is saved for it |
| `LoginCallers.LogoutClears` | pkg/services/session.go:529-563 | When a Logout returned without error the account was out of the store, and still is unless something was saved for it since |
| `LoginCallers.ClearsOnlyWhenAcknowledged` | pkg/services/session.go:529-563 | No Logout clears an account before the Gateway acknowledged one for it |
| `SessionManager.Machine.BeginLogin` | internal/session/state.go:75-83 | Moves to LoggingIn unless a login is in progress or done, and says whether it did |
| `SessionManager.Machine.LoginSucceeded` | internal/session/state.go:87-93 | LoggingIn becomes LoggedIn, any other state stays |
| `SessionManager.Machine.LoginFailed` | internal/session/state.go:97-103 | LoggingIn becomes LoggedOut, any other state stays |
| `SessionManager.Machine.Logout` | internal/session/state.go:107-111 | Any state becomes LoggedOut |
| `SessionManager.RunKeeps` | pkg/hstong/session.go:160-311 | In every run the mutex discipline and the recorded outcomes hold, and while no Logout ended in the middle of a login so does the invariant tying machine, leader and waiters |
| `SessionManager.OneLoginAtATimeIff` | pkg/hstong/session.go:160-311 | The machine says LoggingIn exactly while one call is between BeginLogin and the end of its request, at every point of a run, if and only if no Logout ended in the middle of a login |
| `SessionManager.LogoutEndKeeps` | pkg/hstong/session.go:179-193 | The end of a Logout keeps that law exactly when no login is in flight |
| `SessionManager.NeverRefused` | pkg/hstong/session.go:160-173 | No Login is ever refused as already in progress, Logouts included |
| `SessionManager.LoginAlwaysLeads` | pkg/hstong/session.go:160-173 | A Login that returned led a login of its own that published after it left the wait loop, and returned its outcome |
| `SessionManager.ReLoginForcesALogin` | pkg/hstong/session.go:211-258 | A ReLogin that its cause required, and that returned, left the wait loop and then led a login, or waited for one, or found that a later success had published; an EnsureLoggedIn that did neither had a success before it |
| `SessionManager.LoggedInIff` | pkg/hstong/session.go:160-311 | In every run the machine says LoggedIn exactly when the last of the logins that ended, the resets by Login or ReLogin and the Logouts that ended was a login that succeeded |
| `SessionManager.WaiterReturnsItsLoginIff` | pkg/hstong/session.go:211-228 | A caller that wakes returns the last login published, or nothing if a Logout ended after it; this is the login it waited for if and only if no other has published since and no Logout has ended since |
| `SessionManager.WaitersAgreeWithTheirLeader` | pkg/hstong/session.go:211-252 | A caller that returned the login it waited for returned what that login's leader returned |
| `SessionManager.WaiterMayMissItsLogin` | pkg/hstong/session.go:202-228 | A run in which a waiter returns a later login's success where its own leader returned a failure |
| `SessionManager.LogoutMayDoubleTheLogin` | pkg/hstong/session.go:179-193 | A run in which a Logout ends in the middle of a login and two calls have a request on the wire |
| `SessionManager.LogoutMayHideAFailure` | pkg/hstong/session.go:179-193 | A run in which a waiter returns no error after its login failed, because a Logout ended in between |
| `PushKeys.DecimalInjective` | pkg/services/push.go:1598-1605 | Decimal rendering of a data type, negative ones included, is injective |
| `PushKeys.SortedUnique` | pkg/services/push.go:1598-1605 | A multiset of parts has one sorted arrangement, so order is erased and nothing else |
| `PushKeys.JoinInjective` | pkg/services/push.go:1598-1605 | Joining the sorted parts of instruments whose codes do not split loses nothing, separators in codes or not |
| `PushKeys.KeysEqualIff` | pkg/services/push.go:1598-1605 | Where no code splits, keys are equal exactly when topics and multisets of (code, data type) are equal. A code splits when it spells an instrument with a code that does not, the separator, and the start of what may follow that instrument in order |
| `PushKeys.PlainCodesDoNotSplit` | pkg/services/push.go:1598-1605 | Codes free of either separator byte do not split |
| `PushKeys.CollidesIff` | pkg/services/push.go:1598-1605 | Every admitted list shares its keys with some list of other contents if and only if it names several instruments, or one whose code and data type can pass for two in order |
| `PushKeys.CollidesApart` | pkg/services/push.go:1598-1605 | And then with one that names an instrument it does not, not even by a spelling that routes alike |
| `PushRouting.SuffixIsDroppedOnce` | pkg/services/push.go:1539-1547 | For every code, its suffixed and its bare spelling route alike exactly when the bare one does not end in a space and has no market suffix of its own |
| `PushRouting.SecurityKeys` | pkg/services/push.go:1552-1567 | The loop returns each routing key of the list exactly once |
| `PushRouting.UpdateRoutingKeys` | pkg/services/push.go:1577-1592 | The loop returns, each exactly once, the normalised id and the normalised payload code of an update, blank ones left out |
| `PushRouting.CaseAndSpacesDoNotMatter` | pkg/services/push.go:1539-1547 | Codes that differ only in case or in the spaces around them route alike |
| `PushRouting.PlainCodesAreTheirOwnKeys` | pkg/services/push.go:1539-1547 | A code in upper case, without outer spaces and without a market suffix is its own key |
| `PushRouting.SameKeySameRouting` | pkg/services/push.go:725-757 | Equal canonical keys have equal routing keys, so what one holder's list indexed another's removes |
| `PushInvariant.SubscribeKeepsInvIff` | pkg/services/push.go:693-729 | Subscribing, coalesced or not, keeps registry, index and liveness in agreement, and every bucket exact, if and only if the entry it joins was created for instruments that route like its own |
| `PushInvariant.CancelKeepsInv` | pkg/services/push.go:734-773 | So does cancelling, once or again |
| `PushInvariant.KillKeepsInvIff` | pkg/services/push.go:926-955 | Tearing an entry down keeps them in agreement exactly when no other entry has taken its key |
| `PushRuns.RunIsSafeIff` | pkg/services/push.go:624-970 | Over every run of subscribe, cancel, renewal and close, the invariant and the Gateway agreement hold at every point if and only if every subscription that joined an entry agreed with it in that sense |
| `PushRuns.CleanRunsAgree` | pkg/services/push.go:693-729 | A run in which no code splits is such a run |
| `PushRuns.MisroutesIff` | pkg/services/push.go:693-729 | For every admitted first subscription, a second one can be left out of the bucket of one of its own instruments if and only if the first list names several instruments or one that can pass for two |
| `PushRuns.LiveSubscriptionsHaveOneEntry` | pkg/services/push.go:693-757 | Entries are non-empty and under their own key; a subscription is live exactly when one entry holds it |
| `PushRuns.BucketsAreExact` | pkg/services/push.go:725-773 | A bucket holds exactly the live subscriptions with its routing key, each once, and is never empty |
| `PushRuns.DispatchIsExact` | pkg/services/push.go:978-1051 | An update reaches, once each, exactly the live subscriptions to an instrument whose normalised code is that of its id or of its payload code, blank ones aside |
| `PushRuns.GatewayFollowsTheHolders` | pkg/services/push.go:693-757 | Per key the Gateway hears subscribe and unsubscribe in turns, and until Close is subscribed to exactly the keys of live subscriptions |
| `PushRuns.CancelUnsubscribesIffLast` | pkg/services/push.go:1197-1223 | Cancel unsubscribes exactly when no other live subscription has the key |
| `PushRuns.KillMayOrphan` | pkg/services/push.go:926-955 | For any instruments: subscribe, cancel, subscribe, then a refused renewal of the first entry leaves the second subscription live and unregistered |
| `PushOrchestration.CopyAndValidate` | pkg/services/push.go:1629-1648 | The loop copies the list, or refuses it when empty, holding nil, or holding an instrument without code |
| `PushOrchestration.PushOrchestration.RemoveFromIndex` | pkg/services/push.go:760-773 | Drops one subscription from one bucket, and an emptied bucket from the index |
| `PushOrchestration.PushOrchestration.Attach` | pkg/services/push.go:725-729 | Indexes the subscription under every routing key of its entry |
| `PushOrchestration.PushOrchestration.Subscribe` | pkg/services/push.go:670-722 | Refines the registry's subscribe step, refusals by validation, Gateway or Close included |
| `PushOrchestration.PushOrchestration.Cancel` | pkg/services/push.go:1197-1223 | Refines the registry's cancel step |
| `PushOrchestration.PushOrchestration.KillEntry` | pkg/services/push.go:926-955 | Refines the registry's teardown step |
| `PushOrchestration.PushOrchestration.Close` | pkg/services/push.go:624-643 | Refines the registry's close step |
| `PushOrchestration.PushOrchestration.DispatchMarket` | pkg/services/push.go:978-1051 | Collects, once each, every subscription indexed under the normalised id or payload code, and counts the update as unrouted exactly when there is none |
| `OrderPush.DetachKeepsCountIff` | pkg/services/push.go:1377-1415 | The locked half of Cancel keeps the count exactly when the subscription is still listed |
| `OrderPush.OverlappingCancelsMiscount` | pkg/services/push.go:1377-1415 | Two overlapping Cancels of one of two subscriptions switch the push off under the other |
| `OrderPush.CountFollowsTheSubscribers` | pkg/services/push.go:805-970 | Until Close `tradeSubs` is the number of live order subscriptions and `tradeOn` says whether it is positive, with enable and disable in turns |
| `OrderPush.SubscribesIff` | pkg/services/push.go:787-827 | An order subscription is made exactly when the connection is open and someone is subscribed already or the Gateway accepts, and only the first asks the Gateway |
| `OrderPush.OrderOrchestration.SubscribeOrders` | pkg/services/push.go:787-827 | Refines the subscribe step on the order state |
| `OrderPush.OrderOrchestration.CancelOrder` | pkg/services/push.go:1377-1415 | Refines the cancel step |
| `OrderPush.OrderOrchestration.KillOrders` | pkg/services/push.go:959-970 | Refines the loss of the order push: every holder is shut and the count reset |
| `PushDelivery.RoomIsMade` | pkg/services/push.go:1254-1288 | However the receiver runs in between, the second send finds room: the arm that loses the new value is unreachable |
| `PushDelivery.OfferKeepsValid` | pkg/services/push.go:1254-1288 | Offering keeps order, keeps the most recent values, ends with the newest, and loses one, the oldest, exactly when the channel held all it can and the receiver had not emptied it |
| `PushFeed.DeliveryIsLossyButOrdered` | pkg/services/push.go:1254-1298 | In every run received plus queued is an in-order selection of accepted updates ending with the newest, and what is queued is the most recent ones; losses are at most `Dropped`; `OutOfOrder` counts exactly the late ones |
| `PushFeed.NothingAfterShutdown` | pkg/services/push.go:1254-1260 | The channel was offered exactly the updates delivered before the subscription was shut |
| `PushFeed.DroppedOvercountsIff` | pkg/services/push.go:1254-1288 | A delivery adds one to `Dropped` exactly when the channel held all it can, and counts its losses exactly unless the receiver then emptied it before the eviction |
| `PushFeed.DroppedMayOvercount` | pkg/services/push.go:1254-1288 | Two deliveries after which nothing is lost and one drop is counted |
| `PushFeed.ErrorsAreConserved` | pkg/services/push.go:594-619 | Errors accepted equal errors received, queued and counted as dropped, exactly, and the queued ones are the most recent |
| `PushFeed.Subscription.Enqueue` | pkg/services/push.go:1254-1288 | The two selects of the enqueue, refining the offer to the channel and its count |
| `PushFeed.Subscription.Deliver` | pkg/services/push.go:1254-1298 | Refines the delivery step, the closed case included |
| `PushFeed.ErrorStream.ReportError` | pkg/services/push.go:594-619 | Refines the report step |
| `Frame.DecodeEncode` | internal/push/frame.go:122-160 | A signed or unsigned field in range survives little-endian two's-complement encoding |
| `Frame.EncodeDecode` | internal/push/frame.go:122-160 | And every byte string is the encoding of what it decodes to |
| `Frame.BytesAreDigits` | internal/push/frame.go:122-134 | Byte i of a field is its i-th digit in base 256, least significant first |
| `Frame.ParseOfEncoded` | internal/push/frame.go:122-160 | Decoding an encoded header gives the header back |
| `Frame.EncodedOfParse` | internal/push/frame.go:142-160 | Encoding what was decoded gives back the 151 bytes, for every string that starts "HS" |
| `FrameStream.ReadsCutStream` | internal/push/frame.go:171-224 | A stream of frames cut anywhere reads as exactly its whole frames, unaltered, then EOF at a seam and UnexpectedEOF elsewhere |
| `FrameStream.ReadsWhatWasWritten` | internal/push/frame.go:171-224 | Any sequence of written frames reads back as those frames, then EOF |
| `FrameStream.HalfWrittenFrameIsNotRead` | internal/push/frame.go:208-236 | A writer that gave up inside a frame leaves a stream that reads as the frames before it |
| `FrameIO.EncodeHeader` | internal/push/frame.go:122-134 | Filling the array in place gives the header's bytes |
| `FrameIO.DecodeHeader` | internal/push/frame.go:142-160 | Short or foreign input is refused, otherwise the fields are those of the parsed header |
| `FrameIO.ReadFrame` | internal/push/frame.go:171-197 | Returns what the stream semantics says and consumes exactly that frame |
| `FrameIO.WriteFrame` | internal/push/frame.go:208-236 | Sends the whole frame, or nothing when the body is too large, or a proper prefix when the writer stops, with the writer's error or, if it gave none, a short write |
| `RateLimit.TryBalances` | internal/resilience/ratelimit.go:150-195 | One pass over a bucket pays for what it admits and keeps 0 <= tokens <= Burst |
| `RateLimit.AdmissionsAreBounded` | internal/resilience/ratelimit.go:150-195 | For any state and any clock readings, backwards ones too, admissions are at most Burst plus rate times the advance of the bucket's clock |
| `RateLimit.BurstIsAdmitted` | internal/resilience/ratelimit.go:150-195 | A new bucket admits its first Burst passes whatever the clock reads |
| `RateLimit.IdleBucketFills` | internal/resilience/ratelimit.go:181-195 | A bucket left alone long enough to accrue its burst is full, and a second accrues the rate |
| `RateLimit.SleepLeavesLittle` | internal/resilience/ratelimit.go:163-167 | A truncated sleep leaves less than a nanosecond's worth of tokens missing |
| `RateLimit.SleepStep` | internal/resilience/ratelimit.go:150-195 | Each sleep of a lone waiter makes progress; one that starts with less than a nanosecond's worth missing ends the wait |
| `RateLimit.TokenBucket.Refill` | internal/resilience/ratelimit.go:181-195 | Refines the refill step |
| `RateLimit.TokenBucket.Wait` | internal/resilience/ratelimit.go:150-177 | The wait loop ends with the bucket exactly as its passes leave it, none of them admitted but the last when it succeeds; it succeeds at once when a token is there, and a lone waiter whose clock is not behind the bucket's sleeps at most twice |
| `Limiter.RunKeepsInv` | internal/resilience/ratelimit.go:116-147 | In every interleaving each bucket has granted exactly the calls that passed it, and between any two states at most what it held and what accrued |
| `Limiter.GlobalLimitHolds` | internal/resilience/ratelimit.go:124-129 | Between any two points of a run the calls charged globally are at most Burst plus rate times the advance of the bucket's clock, and no call is admitted anywhere without a charge |
| `Limiter.EndpointLimitHolds` | internal/resilience/ratelimit.go:124-147 | Between any two points of a run the calls admitted to a limited endpoint obey its own bound |
| `Limiter.BurstPasses` | internal/resilience/ratelimit.go:116-147 | In every run no call is held back by a bucket, global or endpoint, that has granted fewer than Burst calls, nor where no limit is configured |
| `Limiter.EndpointBuckets.BucketFor` | internal/resilience/ratelimit.go:133-147 | One bucket per endpoint for good, created full on first use, none without a usable limit |
| `Breaker.Breaker.Allow` | internal/resilience/breaker.go:99-118 | Admits exactly when closed, or open for at least the cooldown, in which case it becomes half-open with its probe out |
| `Breaker.Breaker.OnSuccess` | internal/resilience/breaker.go:124-133 | Closes and resets unless open |
| `Breaker.Breaker.OnFailure` | internal/resilience/breaker.go:138-155 | Counts, opens at the threshold, reopens from half-open, ignores when open |
| `Breaker.RunKeepsValid` | internal/resilience/breaker.go:99-155 | In every reachable state the failure count has reached the threshold exactly when the breaker is not closed, and half-open means one probe is out |
| `Breaker.OpensAtTheThreshold` | internal/resilience/breaker.go:138-155 | From new it stays closed exactly while no streak of failures without a success reaches the threshold, and opens at the report that completes one |
| `Breaker.ProbesAreSpaced` | internal/resilience/breaker.go:99-155 | While it has not closed since opening, probe n comes at least n cooldowns after, whatever stale outcomes arrive |
| `Breaker.DueProbeIsAdmitted` | internal/resilience/breaker.go:99-118 | An open breaker ignores every outcome and turns every call away until the cooldown is over, and admits the first call after |
| `Breaker.ClosesIff` | internal/resilience/breaker.go:124-133 | Only a success reported while half-open closes it |
| `Breaker.ClosingNeedsAProbe` | internal/resilience/breaker.go:99-133 | Before it closes again a call was admitted at least one cooldown after it opened |
| `Routes.MutationIffNormalFormIs` | internal/resilience/retry.go:76-91 | For every string, it is classified as a mutation exactly when its normal form is one |
| `Routes.NormalFormIs` | client/routes.go:214-229 | A string normalizes to a route exactly when it is the route or one of its two aliases; others are unchanged |
| `Routes.NormalizeIsIdempotent` | client/routes.go:214-229 | Normalizing twice is normalizing once |
| `Routes.RoutesAreNotAliases` | client/routes.go:100-160 | No registered route ends in an alias suffix |
| `Retry.Delay` | internal/resilience/retry.go:196-221 | The wrapping loop computes the closed form, which with a cap is the smaller of the cap and BaseBackoff doubled n - 1 times; jitter keeps the delay in its upper half |
| `Retry.UncappedDelayIff` | internal/resilience/retry.go:196-221 | Without a cap a returned delay is a wait exactly while BaseBackoff doubled n - 1 times fits 63 bits, and is that wait when there is no jitter |
| `Retry.UncappedDelayMayCollapse` | internal/resilience/retry.go:204-212 | One nanosecond doubled 63 times without a cap: no wait at all |
| `Retry.CappedDelaysGrow` | internal/resilience/retry.go:196-221 | With a cap delays are positive, never shrink and never exceed it |
| `Retry.Do` | internal/resilience/retry.go:154-183 | Attempts go on exactly while they fail retryably within the budget and the context holds; the answer is the last attempt's or the context's |
| `Retry.DoRoute` | internal/resilience/retry.go:188-190 | Any spelling of a mutation's path is attempted at most once at every configuration |
| `Execute.Client.Execute` | client/client.go:182-231 | A refused call attempts nothing; otherwise the chosen breaker hears exactly one outcome; a mutation reaches the transport at most once |
| `Execute.ChosenIs` | client/client.go:185-199 | A mutation by any spelling of its path is guarded by the mutation breaker, any other call by the query breaker, and the combined one stands in for one that is missing |
| `Execute.SlotIs` | client/client.go:185-199 | The same among concurrent calls |
| `Execute.BreakersHearTheirOwn` | client/client.go:182-231 | In every interleaving a breaker goes through exactly the trace of the calls routed to it, and each call it admitted is in flight or reported once |
| `Execute.QueriesSpareTheMutationBreaker` | client/client.go:185-199 | Queries never move a mutation breaker |
| `FundJournal.ClampPageSize` | pkg/services/account.go:37-45 | The requested size when it is in 1 to 99, 50 when not positive, 99 when larger |
| `FundJournal.Walk` | pkg/services/account.go:55-78 | At most 1000 fetches, each with the previous cursor; the rows of exactly the fetched pages in order, also on an error, which is the one met; it stops exactly at an error, at a page without rows, without a cursor or with the cursor it was asked for, or after 1000 |
| `FundJournal.HonestWalkIsComplete` | pkg/services/account.go:55-78 | Against a Gateway with distinct non-empty cursors the walk returns the first min(n, 1000 * size) rows and no error |
| `FundJournal.OnePage` | pkg/services/account.go:183-208 | A page continues the journal where the walk stands and ends it exactly when nothing was left |
| `PriceBands.TickAtPrice` | pkg/domain/hk_price_bands.go:68-76 | The first-match loop finds the tick of the one band that covers the price, and none exactly above 9995 |
| `PriceBands.TickGrowsWithPrice` | pkg/domain/hk_price_bands.go:41-53 | The tick never shrinks as the price grows |
| `PriceBands.RoundsDownIff` | pkg/domain/price.go:83-88 | On any tick but zero, rounding lands on the grid; it is at or below the price by less than a tick (above, on a negative tick) exactly when the 16-place quotient does not carry into the next whole tick, and on the other side otherwise |
| `PriceBands.RoundingMayCarry` | pkg/domain/price.go:83-88 | A price of twenty decimal places that is rounded up |
| `PriceBands.FinePricesRoundDown` | pkg/domain/price.go:83-88 | A price of at most fifteen decimal places never carries |
| `PriceBands.ValidatesIff` | pkg/domain/price.go:62-82 | On a positive tick exactly the non-negative whole multiples of the tick pass; without one every price that is not negative does |
| `PriceBands.RoundedPricePasses` | pkg/domain/price.go:62-88 | A covered price rounded on its band's tick passes the checks on the tick looked up again for the result, also across a band boundary |

## Left out

- HTTP transport, JSON and protobuf codecs, signatures, password encryption, metrics, tracing, options and environment parsing: a login, subscription or attempt is an arbitrary result.
- The push connection's lifecycle (dialling, reconnect loop, goroutines) and the keep-alive loop.
- Wire-to-domain mappers, field validators, the status table beyond what the retry test needs, and log redaction.
- Order dispatch by account, staleness reports and the capped list of unrouted ids: they would add only easy members.
- `markLoginPending` and `clearLoginPending`, which nothing calls outside tests.
- A store operation that fails changes nothing; a store that fails after writing is not modelled.
- Cancellation of a login by its context is a failed store call, a failed request or a joiner that leaves; the moment within a call is not modelled.
- Subscribe, Cancel, renewal and Close of the push registry are single steps of a run; interleavings inside one of them are not modelled.
- PushRouting.SuffixIsDroppedOnce: trimming and upper-casing are modelled for ASCII only.
- FrameStream.ReadsWhatWasWritten: frames with compression 0, the only ones the reader accepts.
- PushKeys.KeysEqualIff: requires of every instrument a code, as validation does, and that it does not split, which the code does not check; that is enough for two lists to be told apart but not always needed, and CollidesIff is the exact condition on one list.
- RateLimit.AdmissionsAreBounded: token counts are exact reals; floating-point rounding is not modelled.
- RateLimit.TokenBucket.Wait: models a lone waiter, whose clock advances by at least what it sleeps and never reads the zero time; the two-sleep bound is for rates whose longest sleep fits a Duration.
- Limiter.RunKeepsInv: the limiter's composition is a transition system on values, since its calls interleave; only the bucket and the map of buckets are mutable objects.
- Breaker.ProbesAreSpaced: assumes the breaker's clock does not go back, as a monotonic clock does not.
- Retry.Do: a missing attempt function, which the code refuses, is not modelled.
- Execute.Client.Execute: one call with nobody else at its breaker; BreakersHearTheirOwn covers interleaved calls.
- FrameIO.WriteFrame: a writer that takes everything and reports an error all the same is not modelled.
- PriceBands.RoundsDownIff: the decimal library, which is not part of the repository, is taken to keep 16 places of a quotient, halves away from zero, and exact remainders.
