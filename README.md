# bluto streams, modelled in Dafny

bluto is a Next.js front end for Superfluid money streams on Base mainnet.
Its conditional streams are ordinary streams that the page watches: it reads
the receiver's exercise scores from an on-chain fitness contract, records
whether each timeframe's requirement was met, and warns the sender when it
was not. Nothing stops a stream automatically; the sender stops it by hand.
This project models the logic of four parts of it:

- the conditional-stream monitor (`ConditionalStreamList.tsx`): the
  activity-window rule, the countdown, the activity history with its miss
  count, the two `ScoreAdded` listeners, the one-minute tick, creating and
  stopping a stream, and the retry policy for rate-limited RPC calls;
- the list of outgoing streams (`StreamList.tsx`): reading the Superfluid
  subgraph, naming receivers through a one-hour cache, the amount streamed
  so far, stopping a stream, and the filter put on `console.error`;
- the name-resolution hook (`useNameResolution.ts`): the web3.bio URL asked
  for and how the reply becomes a profile or an error;
- the conditional-stream form (`ConditionalStreamForm.tsx`): its fields, the
  guard before submitting, the token address, the conditions handed on, and
  the error shown afterwards.

The modules are `Common` (Option, Result, the shape of a thrown error and
`reason || message || fallback`), `Text` (`includes`, `join`, ASCII
lower-casing, decimal numerals), `ConditionalStreams`, `StreamListing`,
`NameResolution` and `ConditionalForm`. Component state is a class whose
methods replace its fields the way the component's `setState` calls do. The
pure helpers (`checkRequirements`, `updateActivityHistory`, the list
transformations) are functions, with lemmas stating what they guarantee.

Every outside answer is a parameter: the clock (`now`, in milliseconds), the
subgraph's reply, web3.bio's replies, the wallet's chain id, and the outcome
of the contract calls and of the transaction receipts. The `n`-th call of a
retried operation is the parameter `call(n)`.

Two behaviours of the code that a reader might not expect, both modelled as
written:
- The red "missed checks" banner counts every failed check in the history
  plus the new one, not only consecutive misses
  (`ConditionalStreams.WarningCountsSeparatedMisses`).
- In `StreamList.tsx`, `stopStream` returns before its `try` when no wallet
  is connected, so the `finally` that clears the stopping state does not run
  on that path.

## Model

| member | source | states |
|---|---|---|
| Common.ErrorText | src/components/ConditionalStreamList.tsx:441-447 | The message after a failed call is the error's reason if it has one, else its message, else the fallback text; it is always one of the three, and with a non-empty fallback a failure never shows an empty message. |
| ConditionalStreams.RequirementsUntilDeadline | src/components/ConditionalStreamList.tsx:180-193 | Without a score the conditions are never met. A score meets them exactly when the clock is before the score's time plus the timeframe and pushups plus squats reach the required count. |
| ConditionalStreams.RequirementsLapseOnce | src/components/ConditionalStreamList.tsx:180-193 | Conditions met at a later instant were met at every earlier one, so once they lapse they stay lapsed until a new score. |
| ConditionalStreams.TimeRemaining | src/components/ConditionalStreamList.tsx:106-118 | The countdown's seconds are below 60, and minutes times 60 plus seconds is the remaining time (never negative) cut to whole seconds. |
| ConditionalStreams.CountdownMatchesRequirements | src/components/ConditionalStreamList.tsx:106-118 | For a score with enough exercise, the countdown shows time left exactly when the window rule says the conditions are met. |
| ConditionalStreams.CountdownStopsAtZero | src/components/ConditionalStreamList.tsx:110-117 | Once the window has run out the countdown reads "0m 0s". |
| ConditionalStreams.MissedAppend | src/components/ConditionalStreamList.tsx:264 | Appending a check to a history adds one miss exactly when that check failed. |
| ConditionalStreams.MissedBound | src/components/ConditionalStreamList.tsx:264 | A history never holds more misses than checks. |
| ConditionalStreams.KeepLast | src/components/ConditionalStreamList.tsx:268 | `slice(-5)` keeps the last five checks, or all of them when there are fewer, and they are a suffix of the history. |
| ConditionalStreams.UpdateWaitsForTimeframe | src/components/ConditionalStreamList.tsx:245-254 | A stream whose last check is less than one timeframe old is returned unchanged. |
| ConditionalStreams.UpdateRecordsOneCheck | src/components/ConditionalStreamList.tsx:245-273 | Otherwise exactly one check is recorded, last, at `now`, holding the window rule's verdict. The entries before it are the newest of the old history, at most five remain, the miss count is the old history's misses plus the new one, and no other field changes. |
| ConditionalStreams.UpdatePreservesWellFormed | src/components/ConditionalStreamList.tsx:245-273 | Updating keeps the history at five checks or fewer, the miss count at six or fewer, and successive checks at least one timeframe apart. |
| ConditionalStreams.UnmetConditionsRecordMiss | src/components/ConditionalStreamList.tsx:693-697 | When the "conditions not met" banner shows and a check is due, the check records a miss. |
| ConditionalStreams.SecondMissRaisesWarning | src/components/ConditionalStreamList.tsx:653 | A miss recorded after a history whose newest check was a miss raises the "missed checks" banner. |
| ConditionalStreams.WarningCountsSeparatedMisses | src/components/ConditionalStreamList.tsx:653 | The banner also rises after a miss, a success and a miss: it counts all misses, not consecutive ones. |
| ConditionalStreams.RecordScore | src/components/ConditionalStreamList.tsx:215-221 | The first listener gives the new score to every stream whose receiver equals the user ignoring case, and leaves every other stream as it was, in place. |
| ConditionalStreams.RecordAndCheck | src/components/ConditionalStreamList.tsx:493-502 | The second listener gives those same streams the score and runs the activity check on them; every other stream is left as it was, in place. |
| ConditionalStreams.ListenersCompose | src/components/ConditionalStreamList.tsx:196-229 | Running the first listener and then the second acts as the second alone. |
| ConditionalStreams.ScoreTouchesOnlyItsReceiver | src/components/ConditionalStreamList.tsx:493-502 | A score leaves streams to other receivers unchanged and never changes a stream's id, receiver or active state. |
| ConditionalStreams.TickAll | src/components/ConditionalStreamList.tsx:459-471 | The timer runs the activity check on every active stream and leaves stopped streams alone, keeping the order. |
| ConditionalStreams.TickKeepsStreams | src/components/ConditionalStreamList.tsx:459-471 | A tick never changes a stream's id, receiver, conditions, active state or last score. |
| ConditionalStreams.SetStopping | src/components/ConditionalStreamList.tsx:728-734 | Only the stream with this id has its stopping flag set; all others are unchanged. |
| ConditionalStreams.FailedStopRestores | src/components/ConditionalStreamList.tsx:767-776 | When no stream with the id was already stopping, marking it and then releasing it after a failure gives back the list as it was. |
| ConditionalStreams.MarkStopped | src/components/ConditionalStreamList.tsx:756-766 | Only the stream with this id becomes inactive and not stopping; all others are unchanged. |
| ConditionalStreams.MarkStoppedAbsorbs | src/components/ConditionalStreamList.tsx:728-766 | A successful stop ends in the same list whether or not the stream was first marked stopping, and stopping twice changes nothing more. |
| ConditionalStreams.StoppedStreamIsLeftAlone | src/components/ConditionalStreamList.tsx:462-466 | A stopped stream loses its stop button and is left alone by every later tick; other streams are not touched by the stop. |
| ConditionalStreams.NewConditionalStream | src/components/ConditionalStreamList.tsx:421-438 | A new stream is active, with an empty history, no misses and no stop in flight. It carries the given receiver, token, rate, conditions and score, and satisfies the list's invariant. |
| ConditionalStreams.WithRetry | src/components/ConditionalStreamList.tsx:30-55 | At most `maxAttempts` calls are made, and every call before the last one hit a rate limit. The result is the last call's value, or its error. A rate-limit error is given up on only after all attempts. With no attempts allowed, the result is a rejection with `undefined`. |
| ConditionalStreams.ConditionalStreamList.constructor | src/components/ConditionalStreamList.tsx:148-150 | No streams, not loading, no message. |
| ConditionalStreams.ConditionalStreamList.Tick | src/components/ConditionalStreamList.tsx:459-471 | The list becomes the ticked list and keeps its invariant. |
| ConditionalStreams.ConditionalStreamList.OnScoreAdded | src/components/ConditionalStreamList.tsx:474-510 | Both listeners together leave the list as the second listener's update of it, whether or not some stream goes to this user, and keep the invariant. |
| ConditionalStreams.ConditionalStreamList.BeginStop | src/components/ConditionalStreamList.tsx:728-734 | The chosen stream is marked as stopping, so its stop button is disabled. |
| ConditionalStreams.ConditionalStreamList.FinishStop | src/components/ConditionalStreamList.tsx:756-775 | A mined deletion marks the stream stopped and removes its stop button; a failure only clears its stopping flag, enabling the button again. |
| ConditionalStreams.ConditionalStreamList.StopStream | src/components/ConditionalStreamList.tsx:713-777 | Without a wallet, or without the user's confirmation, nothing changes. Otherwise the stream is first marked stopping and then either stopped (the list is the old list with that stream stopped) or released (the old list again, when it was not already stopping). |
| ConditionalStreams.ConditionalStreamList.CreateConditionalStream | src/components/ConditionalStreamList.tsx:276-451 | Without a wallet only the connect message is set. On another chain nothing is added and the switch-network message shows. A failed call shows its error text, and a flow read back at rate "0" shows the zero-rate message. Otherwise exactly one new stream is appended with the success message. Loading ends on every path that started it. |
| StreamListing.ResolveAddress | src/components/StreamList.tsx:87-125 | A fresh cache entry answers without a lookup and leaves the cache unchanged. Otherwise the lookup's name (the first record's truthy fields, or nothing when the lookup failed) is returned and cached at `now`. |
| StreamListing.ResolutionIsRepeatedWithinHour | src/components/StreamList.tsx:91-97 | Whatever a resolution answered, including a failure, is answered again from the cache, whatever the service would say, until its entry is an hour old. |
| StreamListing.EnsCache.constructor | src/components/StreamList.tsx:24-28 | The cache starts empty. |
| StreamListing.EnsCache.Resolve | src/components/StreamList.tsx:87-125 | The returned name and the new cache are those of `ResolveAddress`. |
| StreamListing.TotalStreamedBySeconds | src/components/StreamList.tsx:169-181 | The accrued amount is the settled amount plus the rate times the whole seconds elapsed since the update. |
| StreamListing.TotalStreamedGrows | src/components/StreamList.tsx:169-181 | The amount never decreases over time and is at least the settled amount from the update on. |
| StreamListing.FetchStreams | src/components/StreamList.tsx:30-85 | The read succeeds exactly on a 2xx JSON reply with no `errors` and with `data`. A non-2xx reply fails with the HTTP error, a reply with errors fails with the first error's message, and a success gives the listed streams or none. |
| StreamListing.BuildStreams | src/components/StreamList.tsx:144-185 | The loop produces one card per subgraph stream. |
| StreamListing.BuildStreamsCopies | src/components/StreamList.tsx:144-185 | Each card, in the subgraph's order, carries its stream's token, receiver, rate, symbol and accrued amount, and no card is left resolving. |
| StreamListing.BuildStreamsCachesNames | src/components/StreamList.tsx:158-166 | After the loop every listed receiver has a fresh cache entry holding the name its card shows. |
| StreamListing.SameReceiverSameName | src/components/StreamList.tsx:158-166 | Within one refresh, cards to the same receiver show the same name and avatar. |
| StreamListing.StaleListAfterEmptyRefresh | src/components/StreamList.tsx:144-185 | As written, a refresh that finds no stream leaves the previous list on screen. |
| StreamListing.RulesAgreeOnNonEmptyRead | src/components/StreamList.tsx:144-185 | The code's rule and the corrected one give the same list exactly when the read lists some stream or nothing was shown before. |
| StreamListing.RefreshShowsSubgraph | src/components/StreamList.tsx:137-195 | With the corrected rule the list after a refresh is the subgraph's list, card for card, whatever was shown before. |
| StreamListing.WithoutStreamMembers | src/components/StreamList.tsx:240-244 | A card survives the stop filter exactly when it was listed and is not the stopped token–receiver pair. |
| StreamListing.WithoutStreamAppend | src/components/StreamList.tsx:240-244 | The filter works piece by piece, so the surviving cards keep their order. |
| StreamListing.WithoutStreamIdempotent | src/components/StreamList.tsx:240-244 | Filtering the same pair twice removes nothing more. |
| StreamListing.ArgumentMentionSuppresses | src/components/StreamList.tsx:261-280 | A console message is dropped when any of its arguments mentions one of the three known RPC errors. |
| StreamListing.SplitPhraseSuppressed | src/components/StreamList.tsx:264-270 | Since the arguments are joined with spaces first, a known phrase split over two arguments is dropped although neither argument holds it. |
| StreamListing.StreamList.constructor | src/components/StreamList.tsx:130-135 | No streams, no message, not loading or refreshing, nothing being stopped. |
| StreamListing.StreamList.FetchStreamData | src/components/StreamList.tsx:137-195 | Without a connected address nothing changes. A failed read keeps the list and the cache and shows the fetch-failed message. A successful read shows the built list (or, as written, keeps the previous list when the read lists no stream), clears the message and leaves the cache as the loop left it. Loading and refreshing end either way, enabling the refresh button; the stop state is untouched. |
| StreamListing.StreamList.BuildList | src/components/StreamList.tsx:144-185 | The cards and the cache after the loop are those of `BuildStreams`. |
| StreamListing.StreamList.HandleRefresh | src/components/StreamList.tsx:203-206 | With a connected address the read goes as in `FetchStreamData` and refreshing ends. Without one the refreshing flag stays on and nothing else changes. The stop state is untouched either way. |
| StreamListing.StreamList.AskToStop | src/components/StreamList.tsx:419 | The card's stream becomes the one awaiting confirmation. |
| StreamListing.StreamList.CancelStop | src/components/StreamList.tsx:518 | No stream awaits confirmation. |
| StreamListing.StreamList.StopStream | src/components/StreamList.tsx:208-258 | Without a wallet only the connect message is set. Otherwise a mined receipt with a nonzero status removes the pair and shows the success message, a zero status shows the transaction-failed message, and a thrown error shows its text. The stopping state is cleared in all three cases, enabling the card's stop button. |
| NameResolution.EndpointDeterminesRequest | src/hooks/useNameResolution.ts:21-27 | For inputs without a slash, two requests ask for the same URL exactly when they name the same platform and input. |
| NameResolution.ProfileFromReply | src/hooks/useNameResolution.ts:37-64 | An address always yields a profile: the first listed one, or the bare address. A handle yields an error exactly when the body is null. Otherwise it yields the body's fields labelled with the platform asked about. |
| NameResolution.NameResolver.constructor | src/hooks/useNameResolution.ts:6-8 | No profile, not loading, no error. |
| NameResolution.NameResolver.ResolveIdentity | src/hooks/useNameResolution.ts:11-70 | An empty input clears the profile without a request. Otherwise the endpoint is fetched and loading ends. A failed request sets the failure message and keeps the old profile; a reply sets the profile or the could-not-resolve error. |
| ConditionalForm.TokenAddressDeterminesToken | src/components/ConditionalStreamForm.tsx:46-47 | With distinct ETHx and USDCx addresses, two choices hand on the same address exactly when they are the same token. |
| ConditionalForm.NumberReadsDecimal | src/components/ConditionalStreamForm.tsx:50-51 | `Number` of a whole number written in decimal gives that number back. |
| ConditionalForm.ConditionsCarryFieldValues | src/components/ConditionalStreamForm.tsx:49-52 | Decimal field values reach `onSubmit` as those numbers. Every timeframe on offer and both defaults (50 exercises, 1440 minutes) parse to whole numbers. |
| ConditionalForm.SubmitError | src/components/ConditionalStreamForm.tsx:53-59 | After `onSubmit` settles: no error on success, the thrown `Error`'s message, or the generic failure text for any other thrown value. The error is empty exactly on success or on an `Error` with an empty message. |
| ConditionalForm.ButtonAndGuard | src/components/ConditionalStreamForm.tsx:204 | Filled fields imply an enabled idle button. An enabled button passes the guard exactly when the exercise count and timeframe are also filled. |
| ConditionalForm.ConditionalStreamForm.constructor | src/components/ConditionalStreamForm.tsx:25-31 | Empty receiver and rate, ETH, not submitting, 50 exercises every 1440 minutes, no error; the submit button starts disabled. |
| ConditionalForm.ConditionalStreamForm.SelectReceiver | src/components/ConditionalStreamForm.tsx:87-90 | The receiver is set and the error cleared. |
| ConditionalForm.ConditionalStreamForm.ChangeFlowRate | src/components/ConditionalStreamForm.tsx:96-99 | The rate is set and the error cleared. |
| ConditionalForm.ConditionalStreamForm.ChangeExerciseUnits | src/components/ConditionalStreamForm.tsx:130-133 | The exercise count is set and the error cleared. |
| ConditionalForm.ConditionalStreamForm.ChangeTimeframe | src/components/ConditionalStreamForm.tsx:148-151 | The timeframe is set and the error cleared. |
| ConditionalForm.ConditionalStreamForm.SelectToken | src/components/ConditionalStreamForm.tsx:78-82 | The token is set; the error stays. |
| ConditionalForm.ConditionalStreamForm.HandleSubmit | src/components/ConditionalStreamForm.tsx:33-63 | An empty field sets only the fill-all-fields error. Otherwise `onSubmit` gets the receiver, the token's address, the rate and the converted conditions; the error becomes the outcome's error and submitting ends, so the button is enabled again. |

## Left out

- Rendering, styling, tooltips, modals and the intermediate "Initializing…", "Checking approvals…" and "Waiting for confirmation…" messages. Only the final message of each operation is modelled.
- The saved list: the conditional streams are loaded from and saved to `localStorage` (src/components/ConditionalStreamList.tsx:232-242). The model starts from an empty list and its invariant covers only lists built by its own operations, not a list read back from storage.
- StreamListing.StreamList.FetchStreamData: one clock reading `now` serves the whole refresh, while the code reads `Date.now()` for each name lookup (src/components/StreamList.tsx:90) and each card (src/components/StreamList.tsx:171). `BuildStreamsCachesNames` and `SameReceiverSameName` rely on that single reading; with a later clock per card an entry could expire mid-refresh.
- React scheduling: the `setState` updates of one handler are applied in order, and the listeners' `streams.some` test is evaluated on the current list rather than on the list captured at render time.
- StreamListing.StreamList.FetchStreamData: the cards pushed with `isResolvingEns: true` before each name resolves are intermediate renders and are not modelled; only the state after the loop is.
- The delay between retries (`delay(delayMs)`), the five-second wait before reading the flow back, `setInterval` and `Date.now` are left out or become the `now` parameter.
- ConditionalStreams.ConditionalStreamList.CreateConditionalStream: the individual contract calls (framework set-up, balance, approval with its 1000-token allowance threshold, authorisation, creation) are collapsed into one outcome, `SetupFailed` or `FlowReadBack`. How `WithRetry` and these calls interleave is not modelled.
- Floating-point display: `formatEther`, `formatUnits`, the tokens-per-month conversion and ISO date strings. Amounts are whole wei and times whole milliseconds.
- Parsing JSON and the subgraph's decimal strings: replies are given already parsed, and the subgraph's numbers as naturals.
- ConditionalForm.Number: `Number()` is followed only on strings of decimal digits. Signs, decimals, exponents and whitespace give `Unparsed`.
- Text.ToLower: lower-casing covers ASCII letters only, which is all an address holds.
- The ENS cache lives in a module-level object shared across renders. It is modelled as one `EnsCache` object shared by the list.
- Token addresses come from `src/constants/contracts.ts`, which is not part of this model; they are the `Contracts` parameter.
- `fetchFitnessActivity` and the ABIs are outside the core; the score read after creation is the `activity` parameter.
- The other components (`StreamForm`, `ReceiverSearch`, `FlowRateInput`, `TokenFlow`, `Footer`, `Web3Provider`) and the page layout are not part of this model.

## Findings

| source | as written | input that shows it | evidently intended | confidence | as-written member | corrected member |
|---|---|---|---|---|---|---|
| src/components/StreamList.tsx:144-185 | `setStreams` is called only inside the loop over the subgraph's streams, so a read that lists no stream never replaces the list. | A list showing one stream, then a refresh after that stream was stopped elsewhere: the subgraph returns `[]` and the stopped stream stays on screen. | After a successful read the list is exactly the streams read, empty included. | not executed | StreamListing.StaleListAfterEmptyRefresh | StreamListing.RefreshShowsSubgraph |

The component methods (`StreamListing.StreamList.FetchStreamData`, `StreamListing.StreamList.HandleRefresh`) keep the list as the code does; the corrected rule and its property stand beside them.
