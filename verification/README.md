# Verified model of the calling client and its signaling server

This project models the parts of the one-to-one calling client and of its signaling server in which
calls can go wrong, and proves what they guarantee in every run.

* `CallTypes`, `CallManagers`: one client's call manager. `Perform` is the meaning of each public
  operation, each incoming message and each timer firing as one step; the class `CallManager` changes
  its fields as the source does and is proved to perform exactly those steps, actions in order included.
* `CallDuties`: what a manager owes its observer and its peer. Its reports add up to its state, and what
  one manager says makes the other do its part.
* `CallNetwork`: any number of managers over a network that loses and reorders. Who can be on a call,
  what "accepted" means, and why a finished call does not come back.
* `CallAgreement`, `CallEndings`, `CallLeftAlone`: the same system over lossless per-pair FIFO delivery.
  What caller and callee agree on once nothing is in flight, how a call ends for both, and a run in
  which it does not.
* `CallSessions`, `CallIsolation`, `CallNegotiation`: coordinator and WebRTC engine of every client on
  top of the call network, with peer-connection epochs, callback guards and asynchronous completions that may run at
  any later time. The media network may lose, reorder and duplicate.
* `Presence`, `PresenceOrder`, `PresenceRecords`, `PresenceLimits`: the server's registry with its unlocked gap,
  grace-period jobs and late callbacks, under arbitrary interleaving, under the orderly one, and
  exactly which single departures from that order do which harm.
* `Watchdog`: the ICE watchdog at the granularity of single thread steps.
* `Candidates`: the manually owned queue of pending ICE candidates.
* `LocalTracks`: attaching local tracks in the presence of track-less senders.
* `SignalTransport`: write queue, socket, relay and bounded send channel, end to end, with the condition
  under which nothing is lost. `TransportFifo` shows that the packets in flight are then a network of the
  kind `CallAgreement` assumes: lossless and first-in-first-out for each pair.
* `SignalingCodec`: build, sender-stamped relay, parse and dispatch over abstract JSON, with the order,
  repetition and case of the field names in the text the server reads.
* `SyntheticAudio`: the bounded sample queue.
* `AudioProducer`: the decoding threads that feed it and their wait loops, one check at a time.
* `FramePainter`: the square painter on strided planes, alpha included, against a picture defined per
  pixel.

## What the code does not guarantee

Four statements that one would expect are false of the code. Each has a lemma with a concrete run, and
the property is proved under the exact condition.

* A finished call can come back if a client calls itself (`SelfCallComesBack`), and only then
  (`ComesBackIff`, `NoResurrection`). The user list of the client leaves out its own name
  (src/sdl_app.cc:375); a self-call comes in through `StartCall` and `InitiateCall`, which do not check.
* A callee in the media phase of a quiet system may be alone (`CalleeLeftAlone`). It has its caller if
  and only if the caller never took a step that cancelled the call or let its timer fire
  (`QuietCalleeHasCaller`): neither a timeout nor, after acceptance, a cancel reaches it.
* The registry can become wrong about a uid: a client registered under a generation that is not the
  recorded one, for example (`OverlapBreaksPresence`), which is then never announced offline
  (`OutdatedIsNeverAnnounced`). After an orderly run, a step can lead there through orderly steps if and
  only if it is a connect while an earlier one of the uid is still in its gap, or a callback that
  announces while another job of the uid, not of generation one, is live (`MisleadsIff`).
* An old callback can announce a uid offline before its grace period ends (`DisorderAnnouncesEarly`).
  After an orderly run, a step can lead there through orderly steps if and only if it is a connect while
  an earlier one of the uid is still in its gap, or a callback that announces while another job of the
  uid is live (`EarlyIff`). Either departure from the order does both harms (`OverlapDoesBothHarms`,
  `DisorderDoesBothHarms`).

A run is orderly when no connect of a uid begins while another one is in its gap, and the callbacks of a
uid run in the order in which they were scheduled.

## Assumptions

* A step of a client is one public method, one delivered message, one timer firing or one completed
  library callback. Control work is posted to the I/O thread; the check and the action of the request
  timer, and the guard check and the body of a library callback, are taken as atomic.
* An observer and a transport are registered, client names are not empty, and a generated call id is
  new in the whole system.
* The answers of foreign code (candidate accepted, connection created, tracks attached, random moves,
  channel reachable) are parameters and may be anything.

## Model

| member | source | states |
|---|---|---|
| CallManagers.PerformKeepsSound | src/callmanager.cc:41-358 | every operation keeps the manager consistent: no state Ending between steps, empty call data exactly in Idle, role matching the state, and a current timer exactly while Calling, belonging to that call |
| CallManagers.TimerEndsOnlyItsOwnCall | src/callmanager.cc:307-321 | after any sequence of operations a timer firing ends only the call that started the timer; any other firing changes nothing and tells nobody |
| CallManagers.CallManager.SetCallState | src/callmanager.cc:323-339 | tells the observer only of real changes |
| CallManagers.CallManager.CleanupCall | src/callmanager.cc:341-358 | back to Idle with all call data cleared and the timer outdated; Idle is reported once |
| CallManagers.CallManager.StartCallRequestTimer | src/callmanager.cc:360-380 | the new timer alone carries the current generation |
| CallManagers.CallManager.InitiateCall | src/callmanager.cc:41-62 | only from Idle and when connected: Calling, request sent after the state report, timer started; otherwise nothing happens |
| CallManagers.CallManager.CancelCall | src/callmanager.cc:64-81 | a call being placed is cancelled towards its peer and cleared; in any other state nothing happens |
| CallManagers.CallManager.AcceptCall | src/callmanager.cc:83-109 | acceptance is sent before the state changes and before a connection is asked for |
| CallManagers.CallManager.RejectCall | src/callmanager.cc:111-131 | refusal with a reason that is never empty, then Idle |
| CallManagers.CallManager.EndCall | src/callmanager.cc:133-158 | hang-up sent, connection closed, end reported, Idle, in that order, from every state in a call |
| CallManagers.CallManager.NotifyPeerConnectionEstablished | src/callmanager.cc:180-197 | only Connecting becomes Connected |
| CallManagers.CallManager.HandleCallRequest | src/callmanager.cc:199-232 | Idle starts ringing, any other state answers busy without changing, an empty id is ignored |
| CallManagers.CallManager.HandleCallResponse | src/callmanager.cc:234-265 | only the awaited peer's answer to the current call counts; acceptance outdates the timer and asks for a connection, refusal clears the call |
| CallManagers.CallManager.HandleCallCancel | src/callmanager.cc:267-284 | only a ringing call is cancelled, by its own caller and id |
| CallManagers.CallManager.HandleCallEnd | src/callmanager.cc:286-305 | only the current call is ended, by its own peer and id |
| CallManagers.CallManager.OnCallRequestTimeout | src/callmanager.cc:307-321 | only a call still being placed times out |
| CallManagers.CallManager.RunTimer | src/callmanager.cc:367-379 | a thread whose generation is outdated does nothing |
| CallDuties.ReportsAddUp | src/callmanager.cc:323-358 | after any operations, an observer that only listens knows the state, and whether a connection is wanted, with which peer and in which role |
| CallDuties.NewsIffDue | src/callmanager.cc:199-321 | the user is told of an incoming, accepted, rejected, cancelled, ended or timed-out call exactly when that happens, with its peer and reason |
| CallDuties.DiallingRings | src/callmanager.cc:41-62 | what dialling sends makes an idle client ring on the same call |
| CallDuties.DiallingBusyFails | src/callmanager.cc:210-216 | a client that is not idle sends back what clears the call at the caller, and stays as it is |
| CallDuties.AcceptingConnects | src/callmanager.cc:83-109 | what accepting sends brings the caller into the media phase as well, and both to Connected once connected |
| CallDuties.RefusingClears | src/callmanager.cc:111-131 | what refusing sends clears the call at the caller, which hears a reason that is never empty |
| CallDuties.CancellingClears | src/callmanager.cc:64-81 | what cancelling sends clears a ringing call |
| CallDuties.HangingUpClears | src/callmanager.cc:133-158 | hanging up, by either side and in any state, clears the call and closes the connection on both sides |
| CallNetwork.RunKeepsInv | src/callmanager.cc:41-358 | in every run over a lossy, reordering network: roles and ids match the recorded owner, every packet is genuine, callers past Calling were accepted, a request is in flight at most once and never after being taken up |
| CallNetwork.HoldersAreCallerAndCallee | src/callmanager.cc:41-62 | two clients on one call are its caller and its callee, each naming the other, and nobody else is on it |
| CallNetwork.AcceptedWasAnAccept | src/callmanager.cc:83-109 | an id counted as accepted was taken up by its ringing callee at some earlier step |
| CallNetwork.CallerWasAccepted | src/callmanager.cc:234-265 | a caller past Calling had that very id accepted by its peer earlier in the run, and is not calling itself |
| CallNetwork.NoResurrection | src/callmanager.cc:199-305 | without duplication each client is on each call, not placed to itself, during one contiguous stretch of the run |
| CallNetwork.HeldOrSpent | src/callmanager.cc:341-358 | once on a call placed to somebody else, a client stays on it or can never get back to it |
| CallNetwork.SelfCallComesBack | src/callmanager.cc:41-62 | for every client and id a run in which a self-call ends and is held again |
| CallNetwork.ComesBackIff | src/callmanager.cc:41-62 | some run lets a finished call come back if and only if it was placed to oneself |
| CallAgreement.PerformConduct | src/callmanager.cc:41-358 | the only ways to leave a call, to enter its media phase and to say goodbye, for all operations |
| CallAgreement.FifoRunKeepsAgreement | src/callmanager.cc:83-321 | with lossless FIFO delivery: whoever said goodbye is done with the call; caller, callee and packets in flight always account for each other |
| CallAgreement.QuietCallerHasCallee | src/callmanager.cc:234-265 | nothing in flight: a caller past Calling has its peer in the media phase of the same call |
| CallAgreement.QuietCalleeHasCaller | src/callmanager.cc:83-158 | nothing in flight: a callee in the media phase has its caller there if and only if no earlier step of the run was a cancel or a timeout of that call by its caller |
| CallAgreement.AbandonedWasGivenUp | src/callmanager.cc:64-81 | an id recorded as abandoned had a cancel or timeout step of its caller while Calling |
| CallAgreement.GivenUpIsAbandoned | src/callmanager.cc:307-321 | after such a step the id counts as abandoned for the rest of the run |
| CallAgreement.AbandonedIffGivenUp | src/callmanager.cc:64-81 | an id is recorded as abandoned if and only if some earlier step of the run was a cancel or timeout of it by its caller |
| CallEndings.QuietCallerIsNotAlone | src/callmanager.cc:199-305 | nothing in flight: a caller in any state has its callee on the same call, if the callee is a client |
| CallEndings.LeftForBoth | src/callmanager.cc:286-305 | once one side left a call between two clients, other than by giving it up while calling, nobody is on it in any later quiet state |
| CallEndings.HangUpEndsForBoth | src/callmanager.cc:133-158 | after a hang-up or a refusal by either side, in any state of the call, nobody is on it in any later quiet state |
| CallLeftAlone.CalleeLeftAlone | src/callmanager.cc:267-284 | for any two clients and call id a lossless FIFO run that ends quiet, with the callee in the media phase and the caller gone |
| CallSessions.CallCoordinator.OnCallStateChanged | src/call_coordinator.cc:453-464 | Idle forgets the peer, everything but Connected disarms the watchdog |
| CallSessions.CallCoordinator.OnNeedCreatePeerConnection | src/call_coordinator.cc:519-547 | peer and role are taken over; a connection exists afterwards only if both it and its tracks could be made, under a new guard; only the caller starts an offer |
| CallSessions.CallCoordinator.OnNeedClosePeerConnection | src/call_coordinator.cc:549-558 | watchdog disarmed, connection and guard gone |
| CallSessions.CallCoordinator.CreatePeerConnection | src/webrtcengine_peer_connection.cc:45-67 | a failed creation leaves no guard behind |
| CallSessions.CallCoordinator.ClosePeerConnection | src/webrtcengine_peer_connection.cc:69-127 | guard and connection are gone and nothing else of the endpoint changes |
| CallSessions.CallCoordinator.ProcessOffer | src/call_coordinator.cc:588-622 | an offer for another call, or without a connection, changes nothing and starts nothing |
| CallSessions.CallCoordinator.ProcessAnswer | src/call_coordinator.cc:624-642 | only the current peer's usable answer to the current call reaches the connection |
| CallSessions.CallCoordinator.ProcessIceCandidate | src/call_coordinator.cc:644-673 | only a well-formed candidate of the current peer and call reaches the connection |
| CallSessions.CallCoordinator.OnDescriptionCreated | src/webrtcengine_internal.h:188-207 | an expired guard stops the completion; otherwise the local description is set under the current guard |
| CallSessions.CallCoordinator.OnLocalDescriptionSet | src/webrtcengine_peer_connection.cc:322-352 | the description is sent only if the guard is current and setting it succeeded |
| CallSessions.CallCoordinator.OnRemoteDescriptionSet | src/webrtcengine_peer_connection.cc:192-221 | an offer is answered only under a current guard and with local tracks attached |
| CallSessions.CallCoordinator.IceConnectionTask | src/call_coordinator.cc:251-280 | the watchdog ends up armed exactly for a bad ICE state while Connected |
| CallIsolation.ReactionFacts | src/call_coordinator.cc:453-558 | whatever a manager operation reports, its own coordinator and engine end up consistent with it, create only while there is no connection, and offer only for a caller just accepted |
| CallIsolation.ReceiveFacts | src/call_coordinator.cc:588-673 | what passes the filter belongs to the current call and leaves the coordinator's peer and role as they were |
| CallIsolation.WorldRunKeeps | src/call_coordinator.cc:251-673 | the invariant of the whole system in every run |
| CallIsolation.CallsAreIsolated | src/call_coordinator.cc:302-333 | every message that reaches or leaves a peer connection carries the id of the call that connection was made for, late completions of closed connections included |
| CallIsolation.ConnectionLifecycle | src/call_coordinator.cc:453-558 | a connection exists only during the media phase of its own call, peer and role agree with the manager, nothing is left in Idle, and armed implies Connected |
| CallIsolation.NoConnectionIsReused | src/call_coordinator.cc:526-528 | the early return for an existing connection is never taken |
| CallIsolation.OneOfferPerCall | src/call_coordinator.cc:544-546 | each call sees at most one offer, made by its caller after acceptance |
| CallIsolation.CompletionHasConnection | src/webrtcengine_peer_connection.cc:313-357 | a completion whose guard is current finds the very connection it was issued on, so the unchecked use of it is safe |
| CallNegotiation.CallerHasOffered | src/call_coordinator.cc:519-547 | in every run a caller with a connection has made its offer for that very call |
| CallNegotiation.EnteringMediaConnects | src/call_coordinator.cc:526-546 | entering the media phase makes a connection if and only if the library can and the tracks attach, and starts the caller's offer on it |
| CallNegotiation.ArrivesIff | src/call_coordinator.cc:588-673 | in every run a media message reaches the connection of its receiver if and only if it is usable and carries the id of the call that connection was made for; otherwise it changes nothing |
| CallNegotiation.CompletionsLeadOn | src/webrtcengine_peer_connection.cc:192-221 | in every run a successful completion with a current guard leads on: set locally, sent to the peer of the call, answered |
| CallNegotiation.GatheredIsSent | src/call_coordinator.cc:302-333 | a candidate gathered by an existing connection goes to the peer of its call |
| CallNegotiation.DescriptionsCanBeExchanged | src/call_coordinator.cc:588-642 | from every reachable state in which both sides have a connection and the caller is about to offer, seven happenings bring the offer to the callee's connection and the answer to the caller's |
| CallNegotiation.ArmedIff | src/call_coordinator.cc:251-280 | in every run the watchdog is armed after a happening if and only if a bad ICE state was reported while Connected, or it was armed, no other ICE state was reported and the client is still Connected |
| CallNegotiation.LostPeerEndsCall | src/call_coordinator.cc:382-402 | an expired watchdog while Connected, and an offline peer before that, end the call towards the peer and close the connection |
| CallIsolation.CallsRunInside | src/call_coordinator.cc:94-124 | every step of the whole system is a step of the call network or leaves it unchanged |
| CallIsolation.CallsAreARun | src/call_coordinator.cc:94-124 | the call control in every state of every run of the whole system is the last state of a run of the call network |
| Presence.AnnouncementsAreSeparated | webrtc-signaling-server/main.go:275-304 | under any interleaving a new connect lies between two offline announcements of a uid |
| Presence.AnnouncementsNeedRemovals | webrtc-signaling-server/main.go:244-304 | under any interleaving announcements of a uid never outnumber its removals |
| Presence.RemovedStaysOut | webrtc-signaling-server/main.go:119-154 | under any interleaving a removed connection never reappears in the registry |
| Presence.SignalingServer.StopTimer | webrtc-signaling-server/main.go:129-134 | a job that has already fired cannot be stopped |
| Presence.SignalingServer.HandleConnection | webrtc-signaling-server/main.go:119-151 | first critical section: pending job dropped, generation raised, and a gap exactly when an older connection is replaced |
| Presence.SignalingServer.FinishConnection | webrtc-signaling-server/main.go:151-154 | second critical section: whatever is registered by then is overwritten |
| Presence.SignalingServer.RemoveClient | webrtc-signaling-server/main.go:244-272 | only the registered connection itself is removed and schedules a job |
| Presence.SignalingServer.ConfirmOffline | webrtc-signaling-server/main.go:275-304 | announces exactly when the generation is the recorded one and nobody is registered |
| PresenceOrder.PresenceHolds | webrtc-signaling-server/main.go:119-304 | in orderly runs: registered means recorded generation, recorded and absent means a live job of that generation, never registered and pending |
| PresenceOrder.AnnouncesIffPending | webrtc-signaling-server/main.go:275-304 | a callback announces if and only if its job is still the pending one |
| PresenceOrder.ReturningCancels | webrtc-signaling-server/main.go:129-138 | after a connect no job scheduled earlier ever announces, in spite of the generation reset |
| PresenceOrder.AnnouncedExactlyOnce | webrtc-signaling-server/main.go:258-303 | a uid that stays away is announced by its own job and exactly once |
| PresenceRecords.NewestIsRegistered | webrtc-signaling-server/main.go:119-154 | in orderly runs a uid is registered exactly while its newest connection is active, and by that connection |
| PresenceRecords.RunningTimerIsPending | webrtc-signaling-server/main.go:129-134 | in orderly runs a timer that still runs is that of the pending job of its uid |
| PresenceRecords.HistoryCounts | webrtc-signaling-server/main.go:244-272 | under any interleaving the history has one connect for every connection and one removal for every job of a uid |
| Presence.CallbackSettles | webrtc-signaling-server/main.go:275-304 | a callback of the recorded generation leaves nothing pending for its uid; any other leaves the registry alone |
| PresenceLimits.OverlapBreaksPresence | webrtc-signaling-server/main.go:140-153 | in a concrete run overlapping connects register an outdated generation |
| PresenceLimits.OutdatedIsNeverAnnounced | webrtc-signaling-server/main.go:275-288 | under any interleaving, a uid registered under an outdated generation is never announced offline or forgotten until it connects again |
| PresenceLimits.DisorderAnnouncesEarly | webrtc-signaling-server/main.go:280-303 | out-of-order callbacks announce before the pending grace period ends |
| PresenceLimits.EarlyIff | webrtc-signaling-server/main.go:275-304 | a step taken after an orderly run has an orderly continuation with an early announcement if and only if it is an overlapping connect or a callback announcing while another job of its uid is live |
| PresenceLimits.MisleadsIff | webrtc-signaling-server/main.go:136-153 | a step taken after an orderly run has an orderly continuation that makes the registry wrong about a uid if and only if it is an overlapping connect or a callback announcing while another job of its uid, not of generation one, is live |
| PresenceLimits.OverlapDoesBothHarms | webrtc-signaling-server/main.go:140-153 | for every uid an orderly run after which one overlapping connect can do both harms |
| PresenceLimits.DisorderDoesBothHarms | webrtc-signaling-server/main.go:280-303 | for every uid an orderly run after which one callback out of order can do both harms |
| PresenceLimits.LurkingStrikes | webrtc-signaling-server/main.go:136-138 | a live job left behind by an announcement announces early in some orderly continuation, however far behind the generation is |
| Watchdog.CallbackStartsAtMostOnce | src/ice_disconnect_watchdog.cc:13-33 | in every interleaving of thread steps an Arm runs its callback at most once |
| Watchdog.NoStaleCallback | src/ice_disconnect_watchdog.cc:13-50 | after an Arm or Disarm has returned no callback of an earlier Arm starts, also when called from a callback |
| Watchdog.PassesIffUndisturbed | src/ice_disconnect_watchdog.cc:22-28 | each check of a thread lets it pass if and only if no operation began since it was armed |
| Watchdog.LeftAloneFires | src/ice_disconnect_watchdog.cc:13-33 | a watchdog left alone fires: deadline, checks and callback can follow, and the callback starts |
| Watchdog.StartedWasUndisturbed | src/ice_disconnect_watchdog.cc:26-31 | a callback that starts had no operation begin between its Arm and its generation check |
| Watchdog.NeverJoinsItself | src/ice_disconnect_watchdog.cc:40-50 | an operation waits for the old thread exactly when there is one and it is not the caller |
| Watchdog.IceDisconnectWatchdog.DisarmLocked | src/ice_disconnect_watchdog.cc:40-50 | stops the current thread and joins it, or detaches it when it is the caller |
| Watchdog.IceDisconnectWatchdog.Return | src/ice_disconnect_watchdog.cc:13-38 | arming starts one thread under a generation of its own |
| Watchdog.IceDisconnectWatchdog.CompareGeneration | src/ice_disconnect_watchdog.cc:26-28 | an outdated thread ends without its callback |
| Candidates.CandidatesConserved | src/webrtcengine_peer_connection.cc:226-273 | in every epoch each well-formed candidate is applied or pending, once; none before the remote description; pending in order of arrival |
| Candidates.AllocationsFreedOnce | src/webrtcengine_peer_connection.cc:94-124 | every allocation is pending or freed exactly once, and none outlives its connection |
| Candidates.AppliedIffAccepted | src/webrtcengine_peer_connection.cc:249-273 | over any run a candidate of the present connection was applied if and only if some step offered it after the remote description and the connection took it |
| Candidates.PendingIffNotAccepted | src/webrtcengine_peer_connection.cc:249-254 | a candidate refused or never offered stays pending until a step on which the connection takes it, or until it is closed |
| Candidates.EpochFollowsEvents | src/webrtcengine_peer_connection.cc:226-255 | connection, remote description and number of candidates received are what the events so far say |
| Candidates.RetrySplits | src/webrtcengine_peer_connection.cc:257-273 | a retry neither loses nor doubles a candidate, whatever is accepted |
| Candidates.CandidateQueue.AddIceCandidate | src/webrtcengine_peer_connection.cc:226-255 | applied at once only with a remote description and acceptance, queued otherwise, dropped when malformed or closed |
| Candidates.CandidateQueue.ProcessPendingIceCandidates | src/webrtcengine_peer_connection.cc:257-273 | the loop applies and frees the accepted ones and keeps the others in order, freeing only live allocations |
| Candidates.CandidateQueue.ClosePeerConnection | src/webrtcengine_peer_connection.cc:120-123 | everything pending is freed, each while still live |
| LocalTracks.AddTracksCounts | src/webrtcengine_media_pipeline.cc:91-169 | for any sender list no second track of a kind is ever added, in success or failure, and success attaches both kinds |
| LocalTracks.AnswersCarryBothTracks | src/webrtcengine_peer_connection.cc:207-219 | over any remote descriptions and attempts, every answer is created with exactly one audio and one video track |
| LocalTracks.SucceedsIff | src/webrtcengine_media_pipeline.cc:91-169 | `AddTracks` succeeds if and only if each kind is there already or can be attached now |
| LocalTracks.AttachedIff | src/webrtcengine_media_pipeline.cc:110-169 | what is attached afterwards, also when it fails halfway: video first, audio only once video is there |
| LocalTracks.OffersAreAnswered | src/webrtcengine_peer_connection.cc:207-219 | over any life of a connection, once it carries one track of each kind every offer handled on it is answered |
| LocalTracks.SendersOnlyGrow | src/webrtcengine_media_pipeline.cc:91-169 | senders of a remote description are added, and no event takes a sender away |
| LocalTracks.SuccessMeansOneOfEach | src/webrtcengine_media_pipeline.cc:91-169 | a successful call leaves exactly one track of each kind |
| LocalTracks.LocalMedia.HasLocalSenderTrack | src/webrtcengine_internal.h:24-42 | finds a kind exactly when some sender carries a track of it |
| LocalTracks.LocalMedia.AddLocalTracks | src/webrtcengine_media_pipeline.cc:91-169 | attaches what is missing, video first, and stops at the first failure |
| SignalTransport.ReceivedInOrderOnce | webrtc-signaling-server/main.go:338-359 | within a session a receiver gets an in-order subsequence, without duplicates, of what each sender queued for it |
| SignalTransport.NothingLost | webrtc-signaling-server/main.go:338-359 | if no write fails and every target is reachable and has room, delivered, in the channel, on the wire and in the write queue are together, in order, exactly what a sender queued for a receiver |
| SignalTransport.RelayedOnceOrNever | webrtc-signaling-server/main.go:338-359 | a message whose target is not reachable or has no room is never delivered, and nobody but its target gets it |
| TransportFifo.LosslessIsFifo | webrtc-signaling-server/main.go:338-359 | in every lossless run the packets in flight form a network in which queueing appends, receiving takes the oldest packet of its pair, and nothing else happens |
| SignalTransport.WriteOutstanding | src/signalclient.cc:341-379 | before any write error a write is outstanding exactly when the queue is not empty, and nothing queued is lost or reordered |
| SignalTransport.SignalClient.QueueJsonMessage | src/signalclient.cc:341-355 | starts a write only for the first message of an empty queue |
| SignalTransport.SignalClient.OnWritten | src/signalclient.cc:362-379 | a completed write takes exactly the front and goes on while there is more; a failed one stops |
| SignalingCodec.EndToEnd | src/signaling_codec.cc:235-306 | for each of the seven command kinds, in whatever order the fields are written, one callback at the target, with the sender's uid and the original arguments |
| SignalingCodec.ControlRoundTrip | src/signaling_codec.cc:194-206 | call-control commands survive, omitted reasons included |
| SignalingCodec.DescriptionRoundTrip | src/signaling_codec.cc:11-34 | session descriptions survive, type and text |
| SignalingCodec.CandidateRoundTrip | src/signaling_codec.cc:36-60 | candidates survive, empty mid included |
| SignalingCodec.RelayedForm | webrtc-signaling-server/main.go:457-481 | the relay keeps type, target and payload and replaces the sender |
| SignalingCodec.ServerIsHeard | src/signal_message_dispatcher.cc:19-37 | each of the server's own messages invokes its own callback, the client list with everybody on it in order |
| SignalingCodec.LegacyIsRead | src/signaling_codec.cc:11-60 | flat and snake-case spellings are read as the newer ones |
| SignalingCodec.MissingIsEmpty | src/signaling_codec.cc:11-60 | missing fields give empty texts, the implied kind and line -1 |
| SignalingCodec.EmptyIsOmitted | src/signaling_codec.cc:235-306 | an empty reason is left out, and a message without a target is not relayed |
| SignalingCodec.ServerReads | webrtc-signaling-server/main.go:457-461 | the server reads a field under any case of its name |
| SignalingCodec.SenderCannotPose | webrtc-signaling-server/main.go:463-481 | whatever a client sends, names in any case and fields repeated, the relayed message reaches the observer at most once, under its true uid, and never as a server message |
| SyntheticAudio.SamplesSplitExactly | src/switchable_audio_input_win.cc:74-98 | pushed samples split in order into delivered, dropped, cleared and queued; at most four seconds are queued, counted at the highest sample rate so far, since lowering the rate leaves the queue as it is |
| SyntheticAudio.DeliveryInOrder | src/switchable_audio_input_win.cc:270-294 | chunks hold exactly the delivered samples, in push order |
| SyntheticAudio.DeliveryIsFaithful | src/switchable_audio_input_win.cc:283-294 | silence only at chunk ends, and every sample keeps its channel |
| SyntheticAudio.TickDelivers | src/switchable_audio_input_win.cc:270-294 | every tick delivers ten milliseconds at the rate set last, with silence only when the queue is empty |
| SyntheticAudio.PushDropsOnlyWhenFull | src/switchable_audio_input_win.cc:74-92 | every push is taken up whole and drops samples only when it leaves exactly four seconds |
| SyntheticAudio.ClearEmpties | src/switchable_audio_input_win.cc:69-72 | clearing empties the queue and records its samples as cleared |
| AudioProducer.BackPressureSuffices | src/ffmpeg_file_source.cc:384-392 | any number of decoding threads pushing first and waiting afterwards, with starts, stops, ticks and clears between any two checks, never lose a sample if one push of each makes at most two seconds together |
| AudioProducer.LongerPushesDrop | src/switchable_audio_input_win.cc:85-90 | when they may make more, there is a run that drops a sample |
| AudioProducer.NeverDropsIff | src/webrtcengine_media_pipeline.cc:293-342 | no run drops a sample if and only if the pushes of all threads together are at most two seconds long: two seconds for one file, one each while a file replaces another |
| SyntheticAudio.FourSeconds | src/switchable_audio_input_win.cc:82-83 | the limit is exactly four seconds and a whole number of frames, as is a chunk |
| SyntheticAudio.SwitchableAudioInput.PushSyntheticAudio | src/switchable_audio_input_win.cc:74-92 | appends everything and keeps exactly the newest samples that fit |
| SyntheticAudio.SwitchableAudioInput.QueuedSyntheticFrames | src/switchable_audio_input_win.cc:94-98 | counts the whole frames queued |
| SyntheticAudio.SwitchableAudioInput.NextChunk | src/switchable_audio_input_win.cc:284-294 | takes the oldest samples in order and pads with silence to ten milliseconds |
| FramePainter.MovedIsInside | test/frame_generator.cc:126-129 | every moved square lies inside the frame, for any resolution and move |
| FramePainter.SideIsLargest | test/frame_generator.cc:126-127 | the side drawn is the largest within the square's own and a quarter of the frame |
| FramePainter.MovedBy | test/frame_generator.cc:128-129 | a square moves by what was drawn and comes in again at the other side |
| FramePainter.ChromaFollowsLuma | test/frame_generator.cc:136-143 | on even coordinates a chroma pixel is covered exactly when its four luma pixels are |
| FramePainter.ChromaRows | test/frame_generator.cc:136-143 | the chroma rows covered are those of every second row of the square, half its side each |
| FramePainter.LastCoverWins | test/frame_generator.cc:99-100 | a pixel shows the last square covering it: its luma, U, V or alpha on the respective plane |
| FramePainter.UncoveredIsGrey | test/frame_generator.cc:61-70 | on every plane an uncovered pixel is grey |
| FramePainter.Plane.FillRow | test/frame_generator.cc:130-134 | a row write stays inside its plane and changes exactly the addressed pixels |
| FramePainter.DrawFull | test/frame_generator.cc:130-134 | exactly the covered pixels of a full-resolution plane, luma or alpha, take the square's value |
| FramePainter.DrawChroma | test/frame_generator.cc:136-143 | exactly the covered chroma pixels, at half resolution, take the square's value |
| FramePainter.SquareGenerator.NextFrame | test/frame_generator.cc:72-100 | the frame in memory is exactly the picture of the moved squares, on all planes, with or without alpha |

## Left out

- Lock-level interleaving inside one client: a callback of the engine runs between two steps of the manager, not inside one; `HandleCallEnd` is atomic.
- CallIsolation.ConnectionLifecycle: does not say that Connected reflects the ICE state of the current call, because a posted ICE task carries no call id.
- Watchdog.NoStaleCallback: says nothing about liveness; an operation that joins a thread whose callback waits for the same mutex blocks.
- SignalTransport.ReceivedInOrderOnce: covers one session; reconnecting with back-off is not modelled.
- SyntheticAudio.SamplesSplitExactly: the channel count stays the same, and 64-bit overflow of the size computation is not modelled.
- FramePainter.SquareGenerator.NextFrame: ends before the library's conversion of the finished frame to I010 or NV12.
- Timer and watchdog generations are unbounded; their 64-bit wrap-around is not modelled.
- Shutdown, the user-interface observer and logging, which only forward or stop.
- The list of ICE servers in the registration message: plain list parsing.
- JSON syntax, UTF-8 and floating-point or oversized numbers: a text is its list of fields, and numbers are integers.
- Statistics, rendering, media decoding and the libraries themselves.
