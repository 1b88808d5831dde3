# MoonlightWeb: a verified model

A Dafny model of the parts of MoonlightWeb where the behaviour is decided by state, order and arithmetic
rather than by the platform: the server's stream slots and held `/cancel`s, the browser's two adaptive
ladders, the tunnel that carries many requests over one channel, the pairing messages, the links, the start
page's meter, the port plan, the transport chains, and the two algorithms of the image script. Each module
follows one component.

| module | component |
|---|---|
| `SlotState`, `SlotSafety`, `SlotRequests`, `SlotServer`, `HostCancel` | stream-slot lifecycle of `backend/src/main.cpp`: the steps, what every run keeps, what each request does, the handlers, the held Sunshine `/cancel` |
| `PortPlan`, `TransportChain` | the port plan and the transport chains of the same file |
| `QualityLadder`, `TransportFallback` | the congestion ladder and the transport walk of `frontend/js/app.js` |
| `Tunnel`, `CookieJar`, `Links` | the multiplexer, the cookie jar and the address readers of `bootstrap/v1/tunnel.js` |
| `SignedMessage`, `Fingerprint`, `Pinning` | MW-BIND of `bootstrap/v1/pairing.js` |
| `Meter` | the meter and the download workers of `bootstrap/v1/boot.js` |
| `FloodFill`, `Perspective`, `Quadrilateral` | `scripts/build_stream_image.py` |
| `Base`, `Bytes`, `Text` | shared vocabulary: options, bytes and UTF-8, JavaScript string operations |

Where the source updates objects in place the model has a class with the same fields (`Server`, two `App`s,
`Channel`, `Jar`, `Store`, `Page`, `Boot`, `Database`, `Identity`), and each method is verified against a
function on the object's value; the properties are then proved of those functions over all events and runs.
One event-loop turn is one atomic step, and steps interleave freely.

## What the proofs found

- `find_coeffs` raises `ZeroDivisionError` exactly when a number read off the corners is zero
  (`Quadrilateral.FindCoeffs`): always for a repeated output corner (`Quadrilateral.RepeatedCornerFails`), and
  in general position when the output origin lies on the line the map sends to infinity
  (`Quadrilateral.FailsInGeneralPosition`).
- The pool keeps the wire form of an id and compares it with the raw id of the next request. On a multi-user
  backend a stream launched with "ab" is ended by a launch with "AB" and not by one with "ab"
  (`SlotSafety.LowerCaseIdLosesItsStream`). A browser has two ids, one for its standby leg: there a fresh launch
  spares the browser's own standby stream (`SlotSafety.OwnStandbyIsSpared`), and the cap counts it as a second
  viewer (`SlotSafety.OwnStandbyIsCounted`), contrary to the comment at `backend/src/main.cpp:2587-2591`.
- `/stop-session` and `/quit` call off no launch that is still waiting: a slot the stop emptied fills again
  without another start exactly when its newest launch was queued when the stop came
  (`SlotSafety.RefillsAfterStopIff`).
- A tunnel request answered in time loses its timer while it still waits, so past its deadline it can hang until
  teardown; and one whose END comes on a status of 205 or outside 200..599, or on a Set-Cookie value that is
  neither a string nor a list of them, is never settled (`Tunnel.FateOfARequest`, `Tunnel.UnbuildableHeads`).
- A signed message decodes to its fields exactly when each is shorter than 2^32 bytes
  (`SignedMessage.DecodesIffShort`); beyond, it is ambiguous (`SignedMessage.OneFieldTooLongIsAmbiguous`).
- When only the disk write of the cookie jar is refused, the next page opens the old persistent cookies over
  the new session ones, so a deleted name can come back (`CookieJar.RefusedWriteBringsBackTheOld`).
- A `Max-Age` that overflows a double is written to storage as `null` and comes back as a session cookie
  (`CookieJar.ReopenedExactlyIff`, `CookieJar.EnormousMaxAgeIsForgotten`).
- A held `/cancel` is keyed by uniqueid alone. A relaunch drops it exactly when the uniqueid is not empty
  (`HostCancel.RelaunchDisarmsIff`, reached in `HostCancel.EmptyIdStaysHeld`), and the same uniqueid's stream ending on a second host, an owner's or a
  guest's, loses the first host's cancel (`HostCancel.LostIff`, reached in
  `HostCancel.CancelLostAcrossHosts`).
- After a codec-fallback relaunch under a degraded profile, recovery brings back the user's own bitrate, frame
  rate, height, enhancement and transport exactly where no override was in force
  (`QualityLadder.FoldedSessionRecoversIff`).
- A launch reply that names no chain still earns one relaunch, so the bound of two per rung has one
  exception at zero rungs (`TransportFallback.AtMostTwoRelaunchesPerRung`).
- A handover to a landing segment that is itself id-shaped is read as another machine
  (`Links.HandoverReadsBack`).
- Four empty paths in a manifest stop the download for good (`Meter.FourEmptyPathsStopThePool`).
- The port plan reserves room for one slot more than it grants. A clear count is refused exactly when that
  slot's pair alone reaches the foreign range (`PortPlan.RefusedThoughClearIff`), which costs one slot for the
  signaling bases 48049..48094 (`PortPlan.PlanFallsShortIff`); for 48089..48095 and 65488..65531 the pool's
  slots straddle the foreign range (`PortPlan.PoolStaysClear`).
- A player's Auto chain is not a prefix of the H.264 chain when every canvas rung left is UDP and a
  MediaTrack rung is not (`TransportChain.AutoIsPrefixOfH264`); the shipped order never gets there.

The comment at `backend/src/main.cpp:1939-1940` still describes the ports as ten apart; the code, and the
model, use pairs two apart. The comment at `backend/src/main.cpp:2565` says the pool stores the raw device
id; what a spawned worker's slot holds is the sanitized one, and the model follows the code.

## Model

| member | source | states |
|---|---|---|
| SlotSafety.StepKeepsInv | backend/src/main.cpp:2035-2070 | every handler and callback keeps: a live slot holds a running worker spawned for that slot with its ended handler connected, launches of a slot are numbered apart, and the newest launch of a slot faces an empty slot |
| SlotSafety.RunKeepsInv | backend/src/main.cpp:3690-3721 | that invariant in every state of every run, however starts, joins, answers, quits and ends interleave |
| SlotSafety.SlotSafety | backend/src/main.cpp:3648-3721 | over any run, a slot gains a worker only from empty, only by that worker's own launch, and that launch carries the slot's current generation |
| SlotSafety.WorkerEntersEmptySlotAsNewest | backend/src/main.cpp:3690-3721 | a worker enters a slot only by the router's answer to its own launch, and every other launch queued for the slot is older |
| SlotSafety.EndClearsItsOwnSlotOnly | backend/src/main.cpp:3629-3640 | the end of a worker empties the slot that still holds that worker and no other, so a successor is never cleared |
| SlotSafety.AdmittedLaunchOwnsAnEmptySlot | backend/src/main.cpp:2691-2718 | a start that is admitted leaves its slot empty and is that slot's newest launch |
| SlotSafety.FreshLaunchEndsExactlyWhatItMayReclaim | backend/src/main.cpp:2627-2718 | a fresh launch ends exactly the owner-pair streams, and its own slot's, that are on its host, whose stored id is empty or the request's on a multi-user backend, and whose app is the request's on a concurrent-apps backend; its slot comes out empty |
| SlotSafety.FreshLaunchEndsByDevice | backend/src/main.cpp:2568-2718 | the same in terms of the id each stream was launched with: it is ended by the launches whose raw id is its wire form, or by all if that is empty |
| SlotSafety.OwnStreamsOnlyIffWireShape | backend/src/main.cpp:2566-2572 | on a multi-user backend a stream is ended by exactly the launches with its own id, for ids in wire form; for any other id launches with another id end it, and those with its own only if nothing is left of the id |
| SlotSafety.OwnStandbyIsSpared | frontend/js/api/BackendClient.js:348-353 | of a browser's two ids, a fresh launch with the one ends the browser's own stream only if that was launched with the same one |
| SlotSafety.LowerCaseIdLosesItsStream | backend/src/main.cpp:2566-2572 | a stream launched as "ab" is ended by "AB" and not by "ab" |
| SlotSafety.ChosenSlotIsOurs | backend/src/main.cpp:2568-2658 | slot choice and take-over agree: the chosen slot is never one the take-over would spare |
| SlotSafety.StandbyTouchesOnlyItsSlot | backend/src/main.cpp:2691-2718 | a standby launch tears down its own slot of the owner pair and nothing else |
| SlotSafety.RefusedIff | backend/src/main.cpp:2593-2658 | a launch gets no slot exactly when it would be a viewer over the cap, or needs an extra slot with the pool full |
| SlotSafety.ViewersAre | backend/src/main.cpp:2593-2611 | the viewers counted against the cap are the one asking and those of the live slots on the host, a slot without a device id as itself |
| SlotSafety.ReturningViewerIsNotCountedTwice | backend/src/main.cpp:2587-2609 | an id that already streams the host, and the app where apps count, adds nothing to that count |
| SlotSafety.OwnStandbyIsCounted | backend/src/main.cpp:2587-2609 | a browser's standby leg, under its own id, is counted beside its fresh launch |
| SlotSafety.RefillsAfterStopIff | backend/src/main.cpp:4092-4110 | a reserved slot emptied by /stop-session can fill again with no further start or join exactly when its newest launch was queued when the stop came |
| SlotSafety.RefillsIff | backend/src/main.cpp:3690-3721 | the same for any empty slot of any sound state |
| SlotSafety.StopsKeepTheQueue | backend/src/main.cpp:3940-4110 | neither /quit nor /stop-session touches a queued launch or a generation |
| SlotSafety.QuitEndsExactly | backend/src/main.cpp:3940-3975 | a quit ends the owner slots it owns, and the players unless the host session is kept, and no other slot |
| SlotSafety.StopSessionEmptiesReserved | backend/src/main.cpp:4092-4110 | stopping the session empties every reserved slot and touches none above |
| SlotRequests.StandbySlotIs | backend/src/main.cpp:2550 | a standby launch runs in the owner slot its request names, numbers past the pair meaning the second |
| SlotRequests.FreshSlotIs | backend/src/main.cpp:2627-2658 | a fresh launch under the cap takes the primary slot if that is free or its own to take, else the slot this browser already streams this host and app from, else the lowest vacant slot above the reserved ones |
| SlotRequests.AdmittedIff | backend/src/main.cpp:2510-3062 | a start queues a launch exactly with a host, a slot, an app and a transport left |
| SlotRequests.AdmittedLaunchIs | backend/src/main.cpp:3648-3792 | an admitted start queues one launch with the request's values, which waits for exactly the worker its slot held, and with none there for the display it asked for or the router |
| SlotRequests.JoinedLaunchIs | backend/src/main.cpp:4387-4770 | so does a join, for the worker in its slot or the one the slot is retiring; it keeps the player's uniqueid on a chain relaunch only |
| SlotRequests.JoinWaitsForTheStopped | backend/src/main.cpp:4387-4770 | a join right after the player's stream was stopped waits for the stopped worker |
| SlotRequests.AnswerMovesTheLaunch | backend/src/main.cpp:3690-3776 | an overtaken or refused launch is forgotten on its answer; the newest goes on to the router and into its slot, as its launch described it |
| SlotRequests.SuccessorWaitsForItsPredecessor | backend/src/main.cpp:3782-3792 | over any run, a launch's worker never runs while the worker it found in its slot still does |
| SlotRequests.SlotHoldsItsRequest | backend/src/main.cpp:3664-3673 | over any run, as long as a start's worker has a slot the slot holds that request's wire id, host, session and app |
| SlotRequests.AnswerIsTaken | backend/src/main.cpp:3469-3525 | a streaming worker makes its uniqueid live; a refused standby lets go of its slot, if it still has it |
| SlotRequests.UidTakes | backend/src/main.cpp:2904-2912 | the wire id is the raw one's first 32 hex digits, upper-cased |
| SlotRequests.QuitSays | backend/src/main.cpp:3940-4060 | a quit that keeps nothing sends one cancel for its uniqueid and host and drops the held one of both; one that keeps the host session says nothing |
| SlotRequests.StopSessionSays | backend/src/main.cpp:4092-4120 | every live uniqueid is cancelled by name once, then the host without a name, and no uniqueid stays live |
| SlotServer.Server.SelectSlot | backend/src/main.cpp:2593-2658 | the slot choice with its cap on devices, spare rules, the browser's own slot and the pool |
| SlotServer.Server.TakeOverSlots | backend/src/main.cpp:2691-2718 | the take-over loop; it returns the worker the new launch must wait for |
| SlotServer.Server.Start | backend/src/main.cpp:2510-3062 | a start, including the refusals that come after its take-over; what its launch waits for is SlotRequests.AdmittedLaunchIs |
| SlotServer.Server.Join | backend/src/main.cpp:4387-4770 | a player's join: the retiring worker, the kept uniqueid of a chain relaunch, the dropped cancel |
| SlotServer.Server.OnRouterAnswer | backend/src/main.cpp:3690-3721 | the router's answer behind the generation guard |
| SlotServer.Server.OnDisplayAnswer | backend/src/main.cpp:3745-3776 | the virtual display's answer behind the same guard |
| SlotServer.Server.OnWorkerEnded | backend/src/main.cpp:3526-3645 | the ended handler: hold the cancel unless another slot streams the host, then let go of the slot if it is still this worker's |
| SlotServer.Server.OnTimeout | backend/src/main.cpp:3584-3625 | the held cancel's timer |
| SlotServer.Server.CancelGuestHostSessionSoon | backend/src/main.cpp:4329-4366 | a player's held cancel |
| SlotServer.Server.OnQuit | backend/src/main.cpp:3940-4060 | /quit: players ended unless the host session is kept, owned slots detached, the cancel dropped and sent |
| SlotServer.Server.OnStopSession | backend/src/main.cpp:4092-4120 | every live uniqueid cancelled by name, then the unscoped sweep |
| SlotServer.Server.DetachWorkerSlot | backend/src/main.cpp:2035-2070 | the slot is emptied and the old worker's ended handler disconnected |
| SlotServer.Server.DropPendingHostCancel | backend/src/main.cpp:1997-2004 | drops the entry exactly when uniqueid and host both match |
| SlotServer.Server.Turn | backend/src/main.cpp:2035-2070 | every turn of the event loop is its step and keeps the invariant |
| HostCancel.HeldCancelsAreSafe | backend/src/main.cpp:3584-3625 | every held cancel ever sent left from its own armed timer while no slot but the timer's own held a live worker on its host, nor, for a guest's, its own slot |
| HostCancel.FiringSendsExactly | backend/src/main.cpp:3584-3625 | and the other half: a firing sends its one cancel exactly when it is armed, its host is known and no such slot streams it |
| HostCancel.EndHoldsExactly | backend/src/main.cpp:3571-3628 | a handled end holds a cancel for its own uniqueid and host exactly when no other live slot is on that host, and, for a guest's, the host is known and the uniqueid not empty |
| HostCancel.StopHoldsExactly | backend/src/main.cpp:4329-4366 | so does stopping a player's stream |
| HostCancel.StepLog | backend/src/main.cpp:3571-3628 | no other event ever sends a held cancel |
| HostCancel.UnarmedForGood | backend/src/main.cpp:1991-2004 | a timer whose entry was dropped, replaced or spent is never armed again in the run |
| HostCancel.DroppedTimerNeverSends | backend/src/main.cpp:3587-3589 | and sends nothing for the rest of the run |
| HostCancel.HeldCancelSentOnce | backend/src/main.cpp:3584-3625 | no timer sends twice in any run |
| HostCancel.OneArmedTimerPerUid | backend/src/main.cpp:1991-2004 | at most one armed timer per uniqueid |
| HostCancel.RelaunchDisarmsIff | backend/src/main.cpp:2912-2916 | a relaunch by the same uniqueid on the same host disarms its cancel exactly when the uniqueid is not empty |
| HostCancel.RelaunchSuppressesForGood | backend/src/main.cpp:2912-2916 | and that cancel is never sent in any continuation |
| HostCancel.GuestRelaunchDisarms | backend/src/main.cpp:4521-4545 | a guest's later rung keeps its uniqueid and disarms the cancel its earlier rung left |
| HostCancel.DisarmedIff | backend/src/main.cpp:1991-2004 | over all events, an armed timer is disarmed exactly by a relaunch or chain rejoin of its uniqueid and host, a quit naming both, a new hold of its uniqueid on any host, or its own firing |
| HostCancel.LostIff | backend/src/main.cpp:3571-3583 | after a disarming event no timer is left for that uniqueid and host, unless the same uniqueid's stream ended on that same host and a new one took over |
| HostCancel.EndDisarmsIff | backend/src/main.cpp:3571-3628 | a worker's end, owner's or guest's, disarms a timer exactly when it holds a new cancel of its uniqueid; the old session's cancel is lost exactly when the hosts differ |
| HostCancel.EmptyIdStaysHeld | backend/src/main.cpp:2912-2916 | a run of four events in which an empty uniqueid is held and the relaunch leaves it held |
| HostCancel.CancelLostAcrossHosts | backend/src/main.cpp:3571-3583 | a run of six events after which nothing streams, nothing was sent, and no timer is left for the first host |
| PortPlan.PlanSlotPorts | backend/src/main.cpp:1302-1315 | the largest slot count up to the ceiling whose block of ports stays on one side of 48100, or a single slot when none does |
| PortPlan.CarriesByItsEnds | backend/src/main.cpp:1306-1311 | the loop's two comparisons hold exactly when no port of the block lies on the other side |
| PortPlan.PlanIsUnique | backend/src/main.cpp:1302-1315 | that description leaves one plan only |
| PortPlan.PlannedPortsAreDistinct | backend/src/main.cpp:3423-3425 | within 16 bits, no two signaling, relay, control or media ports of the planned slots collide exactly when slot 0 is clear of the media block |
| PortPlan.PlannedSlotsStayClear | backend/src/main.cpp:1274-1295 | within 16 bits, the planned slots' ports stay on one side of the foreign range |
| PortPlan.RefusedThoughClearIff | backend/src/main.cpp:1304-1311 | a count whose ports are all clear is refused exactly when only the unused pair beyond its last slot reaches the foreign range |
| PortPlan.PlanFallsShortIff | backend/src/main.cpp:1302-1315 | with the shipped constants a larger count than the planned one is clear exactly for signaling bases 48049..48094, and then by one slot |
| PortPlan.ShippedPlan | backend/src/main.cpp:1954-1956 | the plan for the shipped media base and ceiling, for every signaling base |
| PortPlan.PoolPortsAreDistinct | backend/src/main.cpp:1954-1956 | for every 16-bit signaling base, wrap-around and reserved slots beyond the plan included, the pool's ports are distinct exactly when slot 0 is clear of the media block |
| PortPlan.PoolStaysClear | backend/src/main.cpp:1942-1956 | the exact signaling bases for which a pool slot straddles the foreign range |
| TransportChain.FilterTransportsByCodec | backend/src/main.cpp:1178-1215 | MediaTrack rungs are dropped exactly when a codec the host has and a MediaTrack cannot carry will be streamed |
| TransportChain.PlayableIs | backend/src/main.cpp:1178-1215 | codec by codec: the rungs go for HEVC and Auto on a HEVC host and for AV1 on an AV1 host, and never otherwise; what stays keeps its order |
| TransportChain.ShippedKinds | backend/src/main.cpp:1178-1260 | which of the shipped rungs are MediaTrack, relayed and over UDP |
| TransportChain.DropUdpRungsWhenBlocked | backend/src/main.cpp:1249-1260 | UDP rungs go only for a blocked browser beyond the LAN, and never all of a chain |
| TransportChain.UdpDropped | backend/src/main.cpp:1249-1260 | the chain left is empty only if it was, and holds exactly the non-UDP rungs when it changes |
| TransportChain.OwnerChain | backend/src/main.cpp:3011-3051 | the loops build the owner's chain; a forced wss is reported as dropped exactly through the tunnel and is then absent |
| TransportChain.OwnerChainIsArranged | backend/src/main.cpp:3011-3051 | each rung once, priority order behind the forced mode and its tcp sibling, and exactly the rungs asked for that the way to the browser allows |
| TransportChain.ArrangedIsUnique | backend/src/main.cpp:3011-3051 | that description leaves one chain only |
| TransportChain.ForcedUdpLeads | backend/src/main.cpp:3011-3040 | a forced UDP mode leads, then its family over TCP where that is in the order |
| TransportChain.ForcedModeLeads | backend/src/main.cpp:3011-3040 | any other forced mode leads alone |
| TransportChain.PlayerTransport | backend/src/main.cpp:4488-4511 | a player's rung, or which of the two refusals |
| TransportChain.AutoIsPrefixOfH264 | backend/src/main.cpp:4492-4502 | with MediaTrack last, a player's Auto chain is a prefix of the H.264 one unless dropping UDP leaves only MediaTrack rungs, exactly |
| TransportChain.PrefixNeedsMediaLast | backend/src/main.cpp:4492-4498 | on a HEVC host, not through the tunnel and with no UDP rung skipped, the prefix holds exactly for orders with MediaTrack last |
| TransportChain.PlayerIndexNamesOneTransport | backend/src/main.cpp:4492-4511 | with the shipped order, one index always names the same transport in both |
| TransportChain.OwnerAlwaysHasTcp | backend/src/main.cpp:3011-3062 | with the shipped orders, DataChannel over TCP is always in the owner's chain, so it is never empty |
| QualityLadder.App.OnStreamCongested | frontend/js/app.js:3759-3872 | an accepted congestion step, knob by knob |
| QualityLadder.App.MaybeUpgradeQuality | frontend/js/app.js:3906-3979 | one poll of the recovery; what it may change is QualityLadder.OneKnobPerUpgrade |
| QualityLadder.OneKnobPerUpgrade | frontend/js/app.js:3906-3967 | a poll turns nothing before the quiet period is over, and then exactly one knob: frame rate, media transport, height to the next of 1080, 1440 and 2160 or off, bitrate over 0.7 or off; no other setting moves |
| QualityLadder.StepDownIs | frontend/js/app.js:3796-3868 | above 720 an accepted congestion lowers the height to the next rung, the bitrate to half or 0.7 within the recommended one, and forces the upscaler exactly when none is on and the stream is not a media one |
| QualityLadder.StepDownAt720 | frontend/js/app.js:3816-3868 | at 720 it turns the first free of media transport, frame rate and bitrate, the bitrate being cut along with any of them |
| QualityLadder.RefusedStepIsNone | frontend/js/app.js:3774-3794 | a congestion while busy or within 15 s of the last step changes nothing |
| QualityLadder.RunKeepsInv | frontend/js/app.js:3796-3872 | in every reachable state the bitrate override lies in [2000, user's), the height override is a lower rung, a forced upscaler implies a height override, the stable period is one of four |
| QualityLadder.NeverAboveTheUser | frontend/js/app.js:3796-3979 | no session, over any events, exceeds its user's bitrate, frame rate or height, and the leftover branch is never reached; the user named a height or the host's stays constant |
| QualityLadder.UpgradeProgresses | frontend/js/app.js:3926-3967 | every upgrade strictly lowers the steps left, and never meets the leftover branch |
| QualityLadder.RecoverySpends | frontend/js/app.js:3906-3979 | over any run without congestion or codec fallback, refused polls and hints included, each accepted upgrade is paid for from the steps left and nothing adds to them |
| QualityLadder.QuietNetworkRecovers | frontend/js/app.js:3906-3979 | once such a run accepted as many upgrades as steps were left, no override is left and the settings' own values are back |
| QualityLadder.QuietTimeRecovers | frontend/js/app.js:3886-3924 | polled without pause, that takes at most one stable period and one poll for every step left and every hint on the way |
| QualityLadder.FoldedSessionRecoversIff | frontend/js/app.js:1852-1971 | after a codec-fallback relaunch, recovery brings back each of bitrate, frame rate, height and enhancement exactly when it was not overridden at the relaunch; the transport asked for is the user's when power saving names one, or nothing else was named |
| QualityLadder.StepOnlyLowers | frontend/js/app.js:3806-3872 | an accepted step that is not a restart strictly lowers its knob, and no step raises any |
| QualityLadder.RestartIffAtTheFloor | frontend/js/app.js:3816-3865 | a plain restart happens exactly when every knob is at its floor |
| QualityLadder.DescentIsFinite | frontend/js/app.js:3759-3872 | without upgrades only a bounded number of steps turn a knob; every further one is a restart |
| QualityLadder.DegradesAreSpaced | frontend/js/app.js:3774-3780 | two accepted steps are at least 15 s apart |
| QualityLadder.UpgradesAreSpaced | frontend/js/app.js:3918-3924 | in any run an accepted upgrade comes a full stable period after every earlier hint, accepted step and accepted upgrade |
| QualityLadder.StablePeriodDoublesPerFlap | frontend/js/app.js:3782-3794 | after k flaps the stable period is 75 s times 2^k, capped at ten minutes |
| TransportFallback.App.OnTransportFailed | frontend/js/app.js:3061-3207 | the decision on every failure |
| TransportFallback.LiveFailureLeads | frontend/js/app.js:3142-3207 | where each failure of a live stream leads: the same first rung once, unless it was a timeout or the decoder, then the next rung, the next media one for a decoder, or the end |
| TransportFallback.RefusedLaunchLeads | frontend/js/app.js:3079-3130 | a launch that never started is tried once more on its rung; then it goes one rung down if a transport had failed before it, and else it is over |
| TransportFallback.AtMostTwoRelaunchesPerRung | frontend/js/app.js:3079-3207 | any sequence of failures on an unchanging chain of n rungs costs at most 2n relaunches, one for an empty chain, and the index never goes down |
| TransportFallback.StepSpendsBudget | frontend/js/app.js:3079-3207 | every relaunch is paid for from a budget over rungs left, first retry and launch retry |
| TransportFallback.BoundIsReached | frontend/js/app.js:3079-3207 | every non-empty chain has a run of exactly 2n relaunches |
| TransportFallback.NoRelaunchAfterIdentityRefusal | frontend/js/app.js:3142-3160 | after the live view reports that the host failed to prove its identity, nothing is ever relaunched |
| TransportFallback.GivesUpOnlyWithNothingLeft | frontend/js/app.js:3162-3207 | a transport failure ends the stream exactly when no usable rung is left below |
| Tunnel.FrameReadsBack | bootstrap/v1/tunnel.js:93-101 | a frame parses back whole, its id exactly when below 2^32 |
| Tunnel.EncodeFrame | bootstrap/v1/tunnel.js:93-101 | the buffer-filling encoder |
| Tunnel.FrameLayout | bootstrap/v1/tunnel.js:93-101 | a frame is its kind, its id most significant byte first, and its payload |
| Tunnel.HeadLayout | bootstrap/v1/tunnel.js:103-112 | a head payload is the JSON's length in the same order, the JSON and the body |
| Tunnel.HeadReadsBack | bootstrap/v1/tunnel.js:103-112 | the JSON part of a head payload reads back |
| Tunnel.Channel.OnChannelMessage | bootstrap/v1/tunnel.js:610-656 | one incoming frame of any kind |
| Tunnel.Channel.TearDown | bootstrap/v1/tunnel.js:588-597 | every socket closed, every waiter rejected, both tables empty |
| Tunnel.StepKeepsInv | bootstrap/v1/tunnel.js:588-755 | every event keeps: requests and sockets never share an id; a request waits, is settled or is stuck, one of the three; a waiting one has its timer exactly until a readable RESPONSE, be it null, answers it |
| Tunnel.IdsAreNeverShared | bootstrap/v1/tunnel.js:715-755 | in every run ids are never reused nor shared between requests and sockets |
| Tunnel.FirstOutcomeStands | bootstrap/v1/tunnel.js:691-750 | an outcome is never replaced |
| Tunnel.RequestSeesOnlyItsOwn | bootstrap/v1/tunnel.js:610-656 | in any interleaving a request ends where its own events in their own order would bring it alone |
| Tunnel.FetchResolvesWithItsOwnAnswer | bootstrap/v1/tunnel.js:610-688 | whatever else travels, a fetch resolves with its own status, the in-order concatenation of its own chunks, or no body for exactly 204, 304 and anything below 200, and its headers but the Set-Cookie ones, in order |
| Tunnel.VisibleIs | bootstrap/v1/tunnel.js:667-680 | a response shows exactly the headers not named Set-Cookie in any case, in their order |
| Tunnel.BuildableIff | bootstrap/v1/tunnel.js:658-688 | a head can be built exactly with a status from 200 to 599 that may have its body, and Set-Cookie values that are strings, falsy or lists of these |
| Tunnel.CookiesAre | bootstrap/v1/tunnel.js:667-680 | the lines that reach the jar are those of the Set-Cookie headers in order, up to the first that throws |
| Tunnel.EndTakesTheCookies | bootstrap/v1/tunnel.js:635-680 | the END of a request adds its head's lines to the jar, buildable or not |
| Tunnel.SocketHearsItsOwn | bootstrap/v1/tunnel.js:223-262 | over any run an open socket hears exactly its own text frames, once each and in order, up to the event that shuts it, and reports its close once |
| Tunnel.OpenedSocketHears | bootstrap/v1/tunnel.js:645-656 | so does a socket opened in the middle of any run |
| Tunnel.Assemble | bootstrap/v1/tunnel.js:658-688 | measuring and copying the chunks concatenates them |
| Tunnel.TeardownSettlesAll | bootstrap/v1/tunnel.js:588-597 | after teardown every request ever made is settled, but for those whose response could not be built |
| Tunnel.TimeoutSettlesIff | bootstrap/v1/tunnel.js:618-736 | in any run a timeout settles a waiting request exactly when nothing answered it before |
| Tunnel.FateOfARequest | bootstrap/v1/tunnel.js:610-740 | over any run a request waits until its END, the channel's end, or a timeout no answer preceded; the first of these settles it, unless it is an END on an unbuildable head, and then nothing ever does |
| Tunnel.UnbuildableHeads | bootstrap/v1/tunnel.js:658-688 | a 205, and a cookie value that is a number, are such heads |
| CookieJar.Lifetime | bootstrap/v1/tunnel.js:199-213 | the last telling attribute gives the lifetime, a delete sticks |
| CookieJar.LineSays | bootstrap/v1/tunnel.js:190-219 | a line as written puts or deletes its trimmed name: deleted when the value is blank or an attribute ends it, else put with the lifetime said last |
| CookieJar.NoPairIsSkipped | bootstrap/v1/tunnel.js:192-195 | a line without a pair changes nothing |
| CookieJar.MaxAgeSays | bootstrap/v1/tunnel.js:201-205 | Max-Age n, in any case and whatever follows the digits, keeps the cookie 1000n ms, for good beyond a double; zero and less end it |
| CookieJar.ExpiresSays | bootstrap/v1/tunnel.js:206-211 | a date keeps the cookie until then, and ends it if it is not ahead |
| CookieJar.OthersAreSilent | bootstrap/v1/tunnel.js:199-212 | no number, no date and no other attribute say anything |
| CookieJar.AcceptedWritesSync | bootstrap/v1/tunnel.js:161-220 | after any history whose last write was accepted the two stores mirror the jar |
| CookieJar.NextPageOpensTheSameJar | bootstrap/v1/tunnel.js:139-220 | a jar reopened later is the old one minus what expired, as JSON could write it |
| CookieJar.NextPageHolds | bootstrap/v1/tunnel.js:139-173 | name by name, the next page has what has no end or one still ahead, with its value and lifetime, the endless for the session |
| CookieJar.RestartHolds | bootstrap/v1/tunnel.js:139-173 | after a restart only what was to outlive the tab is left of that |
| CookieJar.ReopenedExactlyIff | bootstrap/v1/tunnel.js:148-173 | it is exactly the old one minus what expired iff no live lifetime overflowed |
| CookieJar.RestartKeepsThePersistent | bootstrap/v1/tunnel.js:139-173 | without the tab's store exactly the unexpired persistent cookies come back |
| CookieJar.GoneIff | bootstrap/v1/tunnel.js:190-219 | after a batch a name is gone exactly if its last mention deleted it, or it was absent and never put |
| CookieJar.DeletedIsNowhere | bootstrap/v1/tunnel.js:161-219 | a name absent after a batch is in neither store, as far as each was written |
| CookieJar.RefusedWriteBringsBackTheOld | bootstrap/v1/tunnel.js:148-173 | what the next page opens when a write was refused, name by name: stale persistent cookies over the new session ones |
| CookieJar.PutIsStoredByLifetime | bootstrap/v1/tunnel.js:161-173 | a kept cookie is live and in exactly the store its lifetime asks for |
| CookieJar.EnormousMaxAgeIsForgotten | bootstrap/v1/tunnel.js:199-206 | an overflowing Max-Age comes back as a session cookie |
| CookieJar.Jar.AbsorbLines | bootstrap/v1/tunnel.js:190-220 | absorbing lines and saving |
| Links.UnescapeUndoesEscape | bootstrap/v1/boot.js:597-603 | percent-decoding undoes both printers on every text |
| Links.PlainTextIsKept | bootstrap/v1/boot.js:597-603 | letters, digits and the unreserved marks of each printer go out as they are |
| Links.OtherCharsAreEscaped | bootstrap/v1/boot.js:597-603 | any other character goes out as its UTF-8 bytes, a percent sign and two upper-case hex digits each |
| Links.PartsOfJoin | bootstrap/v1/tunnel.js:862-872 | joined parts split back into themselves |
| Links.Page.HostIdFromLocation | bootstrap/v1/tunnel.js:948-976 | an address that names a machine wins over both stores, and only a fragment's machine is written to the tab |
| Links.AddressNames | bootstrap/v1/tunnel.js:948-962 | a path of one 26-character identifier between slashes names that machine whatever the fragment; any other path leaves it to the fragment |
| Links.WrittenPartIsFoundIff | bootstrap/v1/tunnel.js:872-946 | a written key, landing or token is read exactly in its shape: not empty; a slash and 1 to 32 plain characters; 16 to 128 plain characters |
| Links.ExplicitLandingWins | bootstrap/v1/tunnel.js:905-914 | a landing of its own wins over an invitation, in either order |
| Links.HandoverReadsBack | bootstrap/v1/boot.js:597-603 | key and token always read back, the machine exactly when the landing segment is not another id-shaped one |
| Links.RemoteLinkReadsBack | backend/src/main.cpp:4989-4999 | a minted link reads back to its machine, key and landing |
| Links.PlayerLinkReadsBack | backend/src/main.cpp:4276-4288 | an invitation reads back to its machine and token, landing on /p |
| Links.RemoteLinkArrives | bootstrap/v1/boot.js:597-603 | minted, read, handed over and read again, an owner's link keeps machine and key and lands where it asked |
| Links.PlayerLinkArrives | bootstrap/v1/boot.js:597-603 | and so does an invitation |
| SignedMessage.BuildSignedMessage | bootstrap/v1/pairing.js:64-80 | the buffer-filling loop produces the length-prefixed encoding |
| SignedMessage.DecodeUndoesEncode | bootstrap/v1/pairing.js:58-80 | a decoder undoes it for fields shorter than 2^32 bytes |
| SignedMessage.EncodeUndoesDecode | bootstrap/v1/pairing.js:58-80 | whatever decodes is the encoding of what it decodes to |
| SignedMessage.EncodeInjective | bootstrap/v1/pairing.js:58-80 | equal messages mean equal fields |
| SignedMessage.DecodesIffShort | bootstrap/v1/pairing.js:58-80 | a message decodes to its own fields if and only if each is shorter than 2^32 bytes |
| SignedMessage.HostMessageDecodes | bootstrap/v1/pairing.js:82-84 | a host's message is its label, host, browser key, nonce and fingerprint, in this order |
| SignedMessage.BrowserMessageDecodes | bootstrap/v1/pairing.js:86-94 | a browser's is its label, host, nonce and the two fingerprints |
| SignedMessage.OneFieldTooLongIsAmbiguous | bootstrap/v1/pairing.js:73-74 | one field of 2^32 bytes already makes two field lists share a message |
| SignedMessage.HostMessageBinds | bootstrap/v1/pairing.js:82-84 | equal host messages mean equal ids, nonces and fingerprints |
| SignedMessage.BrowserMessageBinds | bootstrap/v1/pairing.js:86-94 | and so do equal browser messages |
| SignedMessage.RolesNeverCollide | bootstrap/v1/pairing.js:82-94 | no host message ever equals a browser message |
| Bytes.Utf8Injective | bootstrap/v1/pairing.js:65 | texts with the same UTF-8 bytes are the same |
| Bytes.Utf8CharIs | bootstrap/v1/pairing.js:65 | a character's bytes: how many, their lead, and the six bits each carries on |
| Bytes.WordIsBigEndian | bootstrap/v1/pairing.js:73-74 | the four bytes of a number, the most significant first |
| Fingerprint.ExtractFingerprint | bootstrap/v1/pairing.js:312-335 | f comes back exactly when some line commits to a sha-256 value f and every fingerprint line does |
| Fingerprint.SameLinesSameAnswer | bootstrap/v1/pairing.js:316-334 | order and repetition of lines do not matter |
| Fingerprint.OtherIff | bootstrap/v1/pairing.js:317-319 | a line is no fingerprint line exactly when the attribute, in any case, does not lead it behind blanks |
| Fingerprint.LineSays | bootstrap/v1/pairing.js:317-330 | a written fingerprint line commits to its upper-cased value exactly when the algorithm is sha-256 in any case and the value 32 hex bytes joined by colons; else it is bad |
| Fingerprint.NoValueIsBad | bootstrap/v1/pairing.js:320-323 | so is one without an algorithm or a value |
| Fingerprint.Sha256Iff | bootstrap/v1/pairing.js:326-329 | the value check is exactly: 32 two-digit upper-case hex bytes with a colon between each two |
| Fingerprint.CommittedIff | bootstrap/v1/pairing.js:312-335 | an SDP gives f exactly when some line of it gives f by its text and every line with the attribute does |
| Fingerprint.ForeignLineSilences | bootstrap/v1/pairing.js:320-324 | one line with the attribute and another algorithm, anywhere, and there is no answer |
| Fingerprint.DisagreeingLinesSilence | bootstrap/v1/pairing.js:331-332 | so it is with two written lines of different values |
| Fingerprint.WrittenAnswer | bootstrap/v1/pairing.js:312-335 | for SDP texts with the same set of lines, in any order and multiplicity, the answer is the same |
| Pinning.Identity.VerifyOffer | bootstrap/v1/pairing.js:229-278 | an offer is accepted exactly when it is signed with the key it presents, for this identity, nonce and fingerprint, and that key may be this host's; only then does anything change |
| Pinning.FirstContactIsAccepted | bootstrap/v1/pairing.js:181-278 | a page of a host not yet known that says hello accepts the offer signed for it, and the key presented is the one kept |
| Pinning.Database.RememberHostKey | bootstrap/v1/pairing.js:181-189 | a stored key is never replaced by another |
| Pinning.OneKeyUntilForgotten | bootstrap/v1/pairing.js:172-278 | over any run of any pages, all offers of a host accepted under pins of one period between forgets carry one key |
| Pinning.StoredKeyIsTheOnlyOne | bootstrap/v1/pairing.js:172-278 | a key the database already had is the only one accepted until its host is forgotten |
| Pinning.ReplayIsForTheSameHello | bootstrap/v1/pairing.js:253-266 | if a signature verifies for one message only, one accepted twice was for the same host, browser key, hello and fingerprint |
| Meter.Boot.Render | bootstrap/v1/boot.js:108-116 | one frame |
| Meter.Boot.WorkerTurn | bootstrap/v1/boot.js:459-463 | one pass of a worker's loop up to its await |
| Meter.RunKeepsInv | bootstrap/v1/boot.js:97-154 | in every run the bar is behind its target, work stays at or below 0.92 before settle, the pool's books balance |
| Meter.NeverBackwards | bootstrap/v1/boot.js:97-116 | work and bar never go back and the seal never reopens |
| Meter.LatestStageCounts | bootstrap/v1/boot.js:372-380 | the stages alone bring the work as far as the latest of them, in whatever order they are reported |
| Meter.FilesMoveTheWork | bootstrap/v1/boot.js:379-380 | the manifest brings it to 0.45, and each file by an equal share to 0.92, never back |
| Meter.SecuredOnlyWhenReal | bootstrap/v1/boot.js:97-149 | before settle the bar is at most 0.944 whatever the elapsed time; the seal closes only after it, with the list fetched or cached and 1196 ms gone |
| Meter.SealsIff | bootstrap/v1/boot.js:108-149 | while settling a frame closes the seal exactly from 1196 ms on |
| Meter.SettlingStillTicks | bootstrap/v1/boot.js:144-154 | a page that neither failed nor left still draws frames |
| Meter.DownloadIsComplete | bootstrap/v1/boot.js:456-472 | when all four workers returned, what was fetched is what four workers serve, and it is every non-empty path once and in order iff fewer than four empty paths come before each |
| Meter.EveryAnswerSpendsATurn | bootstrap/v1/boot.js:459-471 | the pool is done after as many answers as there are paths and workers |
| Meter.FullDownloadReachesShell | bootstrap/v1/boot.js:466-468 | a list without empty paths brings the work to exactly 0.92 |
| Meter.FourEmptyPathsStopThePool | bootstrap/v1/boot.js:461-462 | behind four leading empty paths nothing is ever fetched |
| FloodFill.RemoveBackground | scripts/build_stream_image.py:42-60 | a pixel comes out transparent exactly when it is white and joined to the border by a 4-connected white path; all others are untouched |
| FloodFill.NeighboursAreAdjacent | scripts/build_stream_image.py:58 | flat-index stepping is exactly coordinate adjacency, with no wrap across a row end |
| FloodFill.Visit | scripts/build_stream_image.py:56-59 | each round shrinks the set of unmarked white pixels or, leaving it, the stack |
| FloodFill.ClosedCoversPath | scripts/build_stream_image.py:56-59 | a border-covering marking with nothing left to visit misses no background pixel |
| FloodFill.InteriorWhiteSurvives | scripts/build_stream_image.py:42-60 | a white region fenced off from the border keeps its colours |
| Quadrilateral.FindCoeffs | scripts/build_stream_image.py:24-40 | for any corners: coefficients come back exactly when one map carries the four output corners to the input corners, which is when the number read off the corners is not zero; they are the map written out |
| Perspective.GaussJordan | scripts/build_stream_image.py:30-40 | the elimination succeeds exactly on uniquely solvable systems and then returns the solution |
| Perspective.EliminationKeepsSolutions | scripts/build_stream_image.py:38-39 | subtracting a multiple of the pivot row keeps the solution set |
| Perspective.SwapKeepsSolutions | scripts/build_stream_image.py:34 | so does a row swap |
| Perspective.ZeroPivotIsNotUnique | scripts/build_stream_image.py:33-35 | a uniquely solvable system never meets a zero pivot |
| Perspective.DiagonalIsUnique | scripts/build_stream_image.py:40 | the closing divisions give the one solution of a diagonal system |
| Perspective.SolutionsAreMaps | scripts/build_stream_image.py:26-29 | the eight rows say exactly that the map carries the corners |
| Perspective.CornersLand | scripts/build_stream_image.py:24-40 | with no three corners collinear the map is defined at each output corner and sends it to its input corner |
| Quadrilateral.TheMapCarries | scripts/build_stream_image.py:24-40 | the map written out in areas carries the four corners whenever the output origin is off its horizon |
| Quadrilateral.CramersRule | scripts/build_stream_image.py:24-40 | any coefficients that carry the corners, times the number read off the corners, are the raw map, repeated corners and corners in line included |
| Quadrilateral.CarrierIsTheMap | scripts/build_stream_image.py:24-40 | where that number is not zero they are the map written out |
| Quadrilateral.NeverOneOnTheHorizon | scripts/build_stream_image.py:24-40 | where it is zero there is no map or more than one |
| Quadrilateral.OneMapIffOffHorizon | scripts/build_stream_image.py:24-40 | for any two lists of four corners exactly one map exists if and only if the number is not zero |
| Quadrilateral.ProperMapsAreOffHorizon | scripts/build_stream_image.py:24-40 | with no three corners in line, any map at all makes the number nonzero |
| Quadrilateral.RepeatedCornerFails | scripts/build_stream_image.py:24-40 | two equal output corners always make it zero |
| Quadrilateral.FailsInGeneralPosition | scripts/build_stream_image.py:24-40 | and so may corners in general position: a concrete pair |
| Quadrilateral.ScreenIsFilled | scripts/build_stream_image.py:18-78 | for the script's own quadrilateral and a picture of any positive size the map exists, and its corners land exactly |

## Left out

- SlotServer.Server.Start: the streaming path without worker processes, co-op session reaping, the virtual display's release, metrics and notices to the players are not modelled.
- SlotServer.Server.OnRouterAnswer: the router's port choice and whether the process could be spawned are one boolean of the event.
- SlotServer.Server.OnWorkerEnded: a worker's object goes only after it ended, as its process host emits them, so a slot's pointer never clears itself.
- SlotServer.Server.OnTimeout: the ten seconds of grace are not measured; a timer may fire at any later step, which covers every schedule.
- SlotState.Uid: digits outside ASCII, which the source's filter lets through, are not modelled.
- TransportChain.OwnerChain: the choice between stored and requested mode, where "all" means "auto", comes before it.
- TransportChain.DropUdpRungsWhenBlocked: classifying the browser's address is a boolean of the way.
- QualityLadder.App.OnStreamCongested: the recommended bitrate of a height is an uninterpreted function; overlay, sharing and native-host guards are one boolean; whether the relaunch succeeds belongs to TransportFallback.
- QualityLadder.DegradesAreSpaced: a first step at clock reading 0 counts as no step, as in the source, so the time is positive.
- QualityLadder.FoldedSessionRecoversIff: rereading the stored settings at the codec fallback is modelled as returning what the launch started from.
- TransportFallback.NoRelaunchAfterIdentityRefusal: the standby leg of a seamless transition is not modelled; a refusal reported there goes to `_abortStandby` (`frontend/js/app.js:3645`, `frontend/js/app.js:3710-3731`), which relaunches the live stream at the index it was given.
- TransportFallback.AtMostTwoRelaunchesPerRung: a chain that changes between replies is outside the bound, as the source promises none.
- Tunnel.FetchResolvesWithItsOwnAnswer: JSON is an uninterpreted parser; what the browser makes of header values that are no strings, header merging, non-integer statuses and the WebRTC handshake before the channel opens are not modelled.
- CookieJar.Jar.AbsorbLines: the date parser is uninterpreted, the Cookie header's text order is not modelled, and the threshold of Infinity ignores a double's rounding.
- Links.Page.HostIdFromLocation: storage that throws is read as empty.
- Links.UnescapeUndoesEscape: texts are Unicode scalar values; a JavaScript string with a lone surrogate is not one.
- Fingerprint.ExtractFingerprint: case mapping covers ASCII and the one other character that upper-cases to hex digits.
- Pinning.OneKeyUntilForgotten: each call is one step, so two tabs racing inside `verifyOffer` are not covered; a page that pinned before its host was forgotten keeps its own key, as in the source; a database write that throws is not modelled.
- Pinning.ReplayIsForTheSameHello: what a signature proves is a hypothesis; cryptography is uninterpreted.
- Meter.SecuredOnlyWhenReal: exact reals instead of doubles; the 560 ms at a full bar and the 1.6 s floor after it are not modelled.
- Meter.DownloadIsComplete: cache contents and the version stamp are booleans of the events.
- Quadrilateral.FindCoeffs: exact reals, so the conditioning the pivot choice is for is not a subject here.
- FloodFill.RemoveBackground: an image has at least one row and column, as every decoded one has; the morphological closing after it is not modelled.
- Autostart, display sleep, tray, gamepad driver, service worker, website, packaging and the rest of the user interface are not modelled.
