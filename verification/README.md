# A verified model of the Sora Rust SDK's stateful core

This project models the parts of the SDK whose guarantees hold only over whole runs, and proves those
guarantees for every run. Check it with `dafny verify dfyconfig.toml`.

## What is modelled

**The connection's run loop** (`src/connection.rs`). `RunLoop.dfy` gives the loop as a state machine: one input
is one turn of the loop, one action of another task (a libwebrtc callback, a timer, a user command), or the
shutdown after the loop. Outcomes of the WebSocket library, of libwebrtc and of the clock are part of the inputs,
so a statement about all inputs covers every outcome. Iteration orders of hash sets and maps are inputs too: any
enumeration of the container, another one each time. `SoraConnection.dfy` is the same loop in the source's own
form, a class whose methods update fields; each method's contract gives its whole new state as the state machine's
function of the old one. The table below lists its loops and the methods that put others together; `Run` ties the
class to every result about runs. Histories (callbacks, tickets, outcomes, close frames, loop heads, acknowledgements,
what was put on the wire) are recorded in the state and never read by a step. What is proved over all runs is
spread over these files:

- `Turns.dfy`: a vocabulary that tells a turn from the state before it, what it meets and how its calls go, without
  the steps of `RunLoop.dfy`; the two tellings are proved to agree, piece by piece. `Frames.dfy` has what pieces leave
  alone.
- `TurnEffects.dfy`: what a turn of any run does, in that vocabulary: how its branch ends it, callbacks, the switch,
  queues, the wire and the grace timers.
- `RpcExactlyOnce.dfy`: RPC requests are resolved at most once, by their owner, across redirects that reuse ids.
- `RpcOutcomes.dfy`: which outcome each request is given, told from the members of the response.
- `Redirects.dfy`: when a redirect is followed, what it ends, and how its turn ends.
- `SocketEnd.dfy`: what the WebSocket's output decides, and which reason a Close frame gives.
- `SocketLoss.dfy`: giving up the WebSocket is final, and never the reported reason.
- `Callbacks.dfy`: open and close callbacks alternate, and every open is closed.
- `RunEnd.dfy`: the first cause is returned and always exists; acknowledged disconnects never fail; media failures
  are justified; which Close frame a reason may name.
- `MediaPath.dfy`, `MediaDelivery.dfy`: the media-path monitor is a summary of the states reported, also across a
  redirect that throws the event queue away.
- `DelayedClose.dfy`: the WebSocket is closed in favour of the DataChannel only after an unbroken waiting period.
- `SwitchOver.dfy`: when a comparison of cardinalities means that all channels are open.
- `Handover.dfy`: whether that close finds signaling on the DataChannel.
- `Shutdown.dfy`: after the loop, which channels are reported closed in which order, and when the run fails.
- `Scenarios.dfy`: concrete runs in which the loop does what its documentation does not lead one to expect.

**Components of their own**: the stream under the WebSocket with its proxy tunnel (`ClientStream.dfy`), JSON-RPC
responses (`Rpc.dfy`), camera buffer recycling (`Libcamera.dfy`), the AMF encoder's configuration cache
(`AmfEncoder.dfy`), codec preferences (`CodecPreference.dfy`), the alignment adapter (`Alignment.dfy`), bounded
inflate (`Inflate.dfy`) and H.264 negotiation (`H264.dfy`). Where the source updates something in place there is a
class or a loop, proved against a function on values. `Arithmetic.dfy` and `Wrappers.dfy` are helpers.

## Where the code does not do what one would expect

Each of these is proved, with the exact condition under which the code is right.

- The documentation of `DisconnectReason::WebSocketClosed` (`src/connection.rs:538-546`) promises the code and
  reason of a Close frame that was received. The branch that reads end-of-file (`src/connection.rs:1188-1193`)
  does not look at the stored frame, so a frame received in an earlier turn is forgotten if the peer's end of
  the TCP connection is read before the library reports the socket closed (`RunEnd.EofForgetsCloseFrame`,
  `RunEnd.SocketEndNamesItsFrameExactlyWhen`).
- Once the WebSocket is given up, reading, polling and flushing are guarded, but the event that answers a ping or a
  statistics request over the WebSocket (`src/connection.rs:1371-1375`) is not. After end-of-file the library still
  calls itself connected, so the answer is handed to it and never leaves (`Scenarios.ReplyIsLostWithSocket`). That
  happens exactly in the turns that dequeue such an answer (`SocketLoss.ReplyGoesToLostSocketExactlyWhen`), and no other
  message goes there (`SocketLoss.LossIsAbsorbing`).
- The socket's timer branch (`src/connection.rs:1209-1211`) is not guarded either, so a run that goes on without its
  WebSocket can still be ended by a timer of it (`Scenarios.LostSocketTimerEndsTheRun`); what else can end it with an
  error is listed by `SocketLoss.LostTurnFailsExactlyWhen`.
- A further offer replaces the configured channels without asking again whether to switch (`src/connection.rs:1551`).
  If it names no more channels than are open, the WebSocket is later closed in favour of a DataChannel that signaling
  does not use (`Scenarios.SocketIsClosedTooEarly`, `Handover.CloseFindsDataChannelExactlyWhen`).
- Readiness to switch is documented as "all configured channels are open", but numbers are compared
  (`src/connection.rs:2608-2615`). The two agree exactly when labels are distinct and no other channel can open
  (`SwitchOver.CardinalityTestExactWhen`); `Scenarios.ForeignChannelSwitchesTooEarly` and
  `Scenarios.RepeatedLabelNeverSwitches` are runs in which they do not.
- A failed `init_encode` of the AMF encoder stores new sizes and rates without marking the encoder as stale. If the
  caller neither releases nor initialises it again, a later frame can be submitted to hardware of another size or at
  other rates (`AmfEncoder.FailedInitIsUnsafeExactlyWhen`).
- For broken zlib streams the kind of error depends on where chunks end (`Inflate.BrokenStreamIsReportedAsTooBig`,
  `Inflate.ErrorKindDiffersExactlyWhen`).
- Section 5 of JSON-RPC 2.0 requires an id in a response; a response without a usable one is accepted by the parser and
  dropped later, because no request belongs to it (`Rpc.AcceptedExactlyWhenWellFormed`).

## Model

| member | source | states |
|---|---|---|
| RpcExactlyOnce.EachRequestResolvedOnceByItsOwner | src/connection.rs:1345-1349 | in every state of every run, across redirects: a request gets at most one outcome, the response, timer or redirect behind it carries that request's own session and id, no two requests share these, and requests issued are those resolved plus those pending |
| RpcExactlyOnce.RedirectTellsEveryPendingRequest | src/connection.rs:1686-1692 | a redirect gives every pending request the redirected outcome and leaves none out, in whatever order the map is drained |
| RpcExactlyOnce.NextSessionKeeps | src/connection.rs:1686-1692 | after the drain nothing is pending, and although ids start over no ticket of the new session can equal an old one |
| RpcExactlyOnce.IssueKeeps | src/connection.rs:1441-1465 | issuing keeps the invariant: a new request's ticket is nobody else's, and requests issued stay those resolved plus those pending, for notifications and failed sends too |
| RpcExactlyOnce.ResolveKeeps | src/connection.rs:1345-1349 | resolving any id, pending or stale, keeps the invariant: no request gets a second outcome and each outcome is its own |
| RpcOutcomes.ResponseReachesItsRequest | src/connection.rs:2506-2540 | a turn that takes an `rpc` text with a sole u64 id that is pending gives that request, as its first outcome: the `result` exactly when the response is well formed and has it, the error object's own code, message and data exactly when it is well formed and has that, and a violation exactly when it is not well formed |
| RpcOutcomes.TurnTellsRequests | src/connection.rs:1345-1349 | in a turn of any run a request gets an answer, a violation or a timeout exactly when the turn takes what says so; without an id that is pending nothing is added, and any other outcome is that of a redirect the turn follows |
| RpcOutcomes.TurnIssuesRequests | src/connection.rs:1441-1465 | a request gets the next id and waits exactly when it was sent and expects a response; a failed send uses an id up, a notification does not, and a redirect starts over |
| RpcOutcomes.ExpiredRequestsAreQueued | src/connection.rs:1451-1460 | in every running state a waiting request's timer has fired exactly if its timeout is queued, so no timeout is lost and none meets another request |
| Redirects.RedirectIsFollowedExactlyWhen | src/connection.rs:1615-1666 | the session number grows in a turn exactly when its branch falls through, the socket is not lost, and a redirect is among the WebSocket events with none before it at which polling stops |
| Redirects.RedirectEndsTheSession | src/connection.rs:1668-1692 | such a turn tells every request pending at the poll that it was redirected and gives no other outcome, reports every open channel closed in the set's order, and forgets channels, switch, offer and Close frame |
| Redirects.RedirectGoesOnExactlyWhen | src/connection.rs:1694-1765 | it leaves the loop for the media path exactly when the drained states end that; else it goes on, on a connecting socket with an empty queue, exactly when closing, connecting and the first flush succeed; else it is left if that flush closed the socket, and the run fails if not |
| RpcExactlyOnce.QueueBelongsToSession | src/connection.rs:725-729 | in every running state every queued RPC timeout and every queued message was sent in the present session |
| SocketLoss.LossImpliesSwitched | src/connection.rs:1170-1207 | the socket counts as lost only while the server allows it, has switched, and signaling uses the DataChannel |
| SocketLoss.LossIsAbsorbing | src/connection.rs:1484-1491 | from the loss on the socket stays lost, no redirect is followed, and nothing is flushed to it; signaling messages go over the DataChannel, and only replies and timers are still handed to the WebSocket library |
| SocketLoss.ReplyGoesToLostSocketExactlyWhen | src/connection.rs:1369-1375 | with the socket lost, a turn hands a text to it exactly when it dequeues a reply to a ping or a statistics request |
| Scenarios.ReplyIsLostWithSocket | src/connection.rs:1369-1375 | a run of five turns in which such a reply is handed to the lost socket, which still calls itself connected |
| SocketLoss.LostTurnFailsExactlyWhen | src/connection.rs:1209-1211 | with the socket lost, a turn ends the run with an error exactly when a timer of the lost socket fails, or the event it takes needs the signaling channel or an answer and does not get it, or cannot be read |
| Scenarios.LostSocketTimerEndsTheRun | src/connection.rs:1209-1211 | a run that gave up its socket and is ended by one of its timers |
| SocketLoss.LossIsNeverTheReason | src/connection.rs:1805-1822 | a run that ever lost its socket this way and returns Ok never names WebSocketClosed or SignalingError |
| Callbacks.CallbacksAlternate | src/connection.rs:2242-2275 | in every run and for every label, open and close callbacks alternate starting with open, and the set of open channels is those opened and not yet closed |
| Callbacks.EveryOpenIsClosed | src/connection.rs:1833-1860 | a run that leaves the loop by `break` ends with as many closes as opens for every label, whatever way it left and however the waiting for channels went |
| TurnEffects.CallbacksOfTurn | src/connection.rs:2242-2275 | a turn reports a channel open exactly when it learns that it is and had not reported it, and closed when it learns that, or on a disconnect over the WebSocket or a redirect, which close all; and reports nothing else |
| Shutdown.ClosesAfterTheLoop | src/connection.rs:2778-2823 | while a run waits for its channels, closes are reported in the order in which they are seen, and what is open when the waiting ends is closed at once; a run ended by a channel or the media path, or with signaling on the WebSocket, does not wait |
| RunEnd.AcknowledgedDisconnectNeverFails | src/connection.rs:1862-1890 | once any disconnect was acknowledged, in the loop or while the command channel is drained, the run returns Ok whatever the closing handshake does |
| RunEnd.EveryDisconnectIsAcknowledgedOnce | src/connection.rs:2961-2975 | in a run that leaves by `break`, the acknowledgements are the submitted disconnects, each once and in order |
| Shutdown.FailsAfterTheLoopExactlyWhen | src/connection.rs:3737-3793 | a run that left the loop fails exactly when its socket is neither lost nor closing, sending the Close frame fails or the first round that does not go on errs, and nothing forgives that; else it returns its first reason |
| Shutdown.FlagsTellTheLastProposal | src/connection.rs:1833-1890 | what keeps a run from waiting, and what forgives an error, is told by the reason for which the loop was left |
| RunEnd.ReasonExistsAndIsTheFirst | src/connection.rs:1892-1895 | the final `expect` cannot fail, and the reason returned is the first one proposed in the run |
| RunEnd.CloseCodeComesFromThisSession | src/connection.rs:1672-1675 | a returned reason with a close code is that of a Close frame received in the last session, never one from before a redirect: SignalingError with its text for code 4490, WebSocketClosed with its code and text for any other |
| RunEnd.SocketEndNamesItsFrameExactlyWhen | src/connection.rs:1182-1194 | when the socket's end ends the loop, the reason is that of the session's Close frame exactly unless end-of-file was read with such a frame on record |
| SocketEnd.SocketEndGivesItsReason | src/connection.rs:1805-1821 | a run without an earlier reason that returns because its output found the socket at its end returns SignalingError with the frame's text exactly for code 4490, WebSocketClosed with its code and text for any other frame of the session, and a close without code and text if there is none |
| SocketEnd.FramesAreThosePolled | src/connection.rs:1646-1651 | the frames on record are those polled, each with its session |
| SocketEnd.OutputEndsTheTurn | src/connection.rs:1767-1822 | with its socket in hand, a turn's output fails the run exactly when the due close cannot be sent or the flush fails with signaling not moved; else, at the socket's end, the socket is given up exactly when signaling has moved and the loop left exactly when not; else the loop goes on |
| TurnEffects.BranchEndsTheTurn | src/connection.rs:1162-1482 | a branch that does not fall through fails the run, leaves the loop for its own reason, or goes on, each exactly as the event, command or read it took says |
| RunEnd.EofForgetsCloseFrame | src/connection.rs:1188-1193 | a two-turn run: a Close frame with code 4490 is received while the socket is closing, then end-of-file; the reason is that of a missing frame and not a signaling error |
| RunEnd.MediaFailureIsJustified | src/connection.rs:1283-1313 | PeerConnectionFailed is returned only after the media path was connected once and then either failed or went down with no sign of recovery since |
| RunEnd.GraceTimeoutEndsRunExactlyWhenDown | src/connection.rs:1299-1313 | in a run, a grace timer of generation g ends the loop exactly when g counts the disconnections since the first Connected and nothing recovered after the last |
| MediaDelivery.EveryStateReachesTheMonitor | src/connection.rs:1694-1716 | the states reported by libwebrtc are those the monitor has observed, in order, then those still queued, also across the redirect's draining of the queue |
| TurnEffects.TimersOfTurn | src/connection.rs:2928-2959 | a turn arms a grace timer for each loss of the established path that it observes, in its branch or while a redirect drains the queue, and for nothing else |
| MediaPath.WatchSummarises | src/connection.rs:2868-2897 | the monitor's three fields are a summary of the whole history of states |
| MediaPath.TimeoutRefinesHistory | src/connection.rs:2903-2905 | with any number of stale timers, a timeout ends the connection exactly when its generation is that of the last unrecovered loss |
| MediaPath.FailureTerminatesOnlyWhenEstablished | src/connection.rs:2868-2897 | Failed ends the connection exactly when Connected was seen before |
| MediaPath.GenerationsAreFresh | src/connection.rs:2883-2889 | a newly started timer carries a generation no earlier timer carried |
| MediaPath.MediaPathMonitor.ObserveState | src/connection.rs:2868-2897 | the in-place monitor does what the specification's step does, action included |
| DelayedClose.CloseWaitsAndHappensOnce | src/connection.rs:1767-1779 | every close in favour of the DataChannel came at the end of an unbroken run of ready heads of its own session, counted up to the very turn that sent it, that began at least ten seconds before; and no socket is sent it twice |
| DelayedClose.CloseIsSentExactlyWhen | src/connection.rs:1767-1779 | a turn sends that close exactly when it comes to the output with the switch still possible and the socket connected, the close can be sent, and the run of ready heads ending with its own began at least ten seconds before |
| DelayedClose.HeadRecordsReadiness | src/connection.rs:1150-1161 | a loop head counts as ready exactly when the server has switched and lets the WebSocket go, as many channels are open as the offer names, and the socket is connected |
| Handover.CloseFindsDataChannelExactlyWhen | src/connection.rs:1767-1779 | the close finds signaling on the DataChannel exactly unless the last offer was overlooked: it came after the switch, named no more channels than were open, and no channel has opened nor a switch come since |
| Handover.ReadyButUnmovedExactlyWhenOverlooked | src/connection.rs:1551-1613 | in every running state signaling could be on the DataChannel but is not exactly after such an offer |
| Handover.DisciplinedCloseFindsDataChannel | src/connection.rs:1767-1779 | with one offer a session, distinct labels and announced channels, the close always finds signaling on the DataChannel |
| Scenarios.SocketIsClosedTooEarly | src/connection.rs:1551-1553 | a run in which a second, shorter offer makes the close be sent with signaling still on the WebSocket |
| DelayedClose.DelayIsNotRearmed | src/connection.rs:2643-2654 | after that close the delay is not armed again for the same socket |
| SwitchOver.CardinalityTestExactWhen | src/connection.rs:2608-2615 | comparing numbers means that all configured channels are open exactly when labels are distinct and no other channel can open |
| Scenarios.ForeignChannelSwitchesTooEarly | src/connection.rs:2608-2615 | a run after which signaling uses the DataChannel although the only open channel is not a configured one |
| Scenarios.RepeatedLabelNeverSwitches | src/connection.rs:2608-2615 | a run in which the server has switched and everything configured is open, but signaling stays on the WebSocket because a label is configured twice |
| SwitchOver.SwitchedMeansAllOpen | src/connection.rs:1598-1613 | with one offer a session, distinct labels and announced channels, the loop signals over the DataChannel exactly when the server switched and the open channels are the configured ones |
| TurnEffects.SwitchAfterTurn | src/connection.rs:1598-1613 | after a turn without a redirect the flag of the last `switched` polled is the one kept, the channels are those of the last offer polled, and signaling has moved exactly when it had, or a channel that opened or a `switched` found as many open as the offer named then |
| TurnEffects.WireOfTurn | src/connection.rs:2283-2330 | what a turn puts on the wire: signaling over the DataChannel once that is used, else over a connected WebSocket; replies and timers handed on; one answer for each handshake and offer polled; the close when due; the flush |
| TurnEffects.QueuesAfterTurn | src/connection.rs:1212-1482 | a turn takes at most the first event or command, and queues a state change for a channel announced as open and a reply for each ping polled |
| TurnEffects.EventsArriveInOrder | src/connection.rs:2201-2216 | between turns the queues only grow, in the order of what happens: by a message or state change of a registered channel, by other reports, by the event of an armed timer, and by submitted commands |
| Turns.PolledAreReached | src/connection.rs:1490-1664 | what is polled are the events up to the first that ends the session, the polling or the run |
| SoraConnection.Connection.NotifyCloseForRemaining | src/connection.rs:2737-2746 | closes every open channel once, in the order the set is iterated |
| SoraConnection.Connection.OnEvent | src/connection.rs:1212-1384 | one event of the event channel, replies handed to the WebSocket included |
| SoraConnection.Connection.PollEvents | src/connection.rs:1490-1664 | all pending WebSocket events up to the one that stops it |
| SoraConnection.Connection.FailPendingRpcs | src/connection.rs:1686-1691 | each pending request is told of the redirect, in the map's iteration order |
| SoraConnection.Connection.DrainEventQueue | src/connection.rs:1694-1716 | queued events are dropped except for what they say about the media path, which may end the run |
| SoraConnection.Connection.FollowRedirect | src/connection.rs:1666-1765 | the whole redirect |
| SoraConnection.Connection.RunTurn | src/connection.rs:1143-1824 | one turn of the loop, with its `continue`, `break` and error exits |
| SoraConnection.Connection.CloseCommandChannelAndAckPendingDisconnects | src/connection.rs:2961-2975 | waiting disconnects are acknowledged, other commands dropped |
| SoraConnection.Connection.WaitDataChannelsClose | src/connection.rs:2778-2823 | closes are reported as they come; at the deadline, or when the event channel ends, the rest at once |
| SoraConnection.Connection.ExchangeCloseFrames | src/connection.rs:3746-3775 | the rounds of flushing and reading end with the first one that closes or fails, else at the deadline |
| SoraConnection.Connection.CloseWebSocketHandshake | src/connection.rs:3737-3793 | the handshake fails the run only with a connected socket, a failed exchange and nothing that absorbs it |
| SoraConnection.Connection.Shutdown | src/connection.rs:1826-1895 | everything after the loop |
| SoraConnection.Connection.Run | src/connection.rs:1143-1895 | the fields and loops together execute the specification's run on every sequence of inputs; so no run panics, an acknowledged run never fails, requests are conserved, callbacks alternate and a lost socket means switched signaling |
| ClientStream.ReadsDeliverTheStream | src/connection.rs:3267-3278 | for any buffer sizes, what was read followed by what is left is the stream: nothing lost, repeated or reordered |
| ClientStream.PendingGoesFirst | src/connection.rs:3267-3278 | no socket byte leaves before the last pushed-back one |
| ClientStream.ReadsWhatItCan | src/connection.rs:3267-3278 | a read fits the buffer, is empty only without room or bytes, and empties what was pushed back if that fits |
| ClientStream.HeadEndIsFirst | src/connection.rs:3603-3618 | the response head ends at its first empty line |
| ClientStream.HeadEndIsStable | src/connection.rs:3603-3618 | where it ends does not depend on later bytes |
| ClientStream.StreamSplitsAtHead | src/connection.rs:3603-3618 | the stream after the head is the bytes read beyond it followed by those not read yet |
| ClientStream.HeadOfPrefix | src/connection.rs:3603-3618 | what has been read holds the whole head exactly when it reaches the head's end |
| ClientStream.Client.PushPendingRead | src/connection.rs:3249-3258 | pushed-back bytes follow those already waiting |
| ClientStream.Client.Read | src/connection.rs:3267-3278 | pushed-back bytes first, else the socket; the rest of the buffer is untouched |
| ClientStream.OutcomeIsSettledExactlyWhen | src/connection.rs:3588-3620 | the outcome of a tunnel is settled by the first read that fails, finds nothing, breaks the decoder or completes the head, which is the bytes up to the first blank line, and else by the deadline; it is established exactly when the head is accepted |
| ClientStream.Client.ConnectTunnel | src/connection.rs:3588-3620 | established, refused, closed, failed, malformed and timed out, each exactly when the stream, the reads before the deadline and the decoder's errors say so; an established tunnel delivers the bytes after the head, those that came with it first |
| ClientStream.Client.ConnectThroughProxy | src/connection.rs:3468-3499 | a TLS target is refused exactly when bytes came with the head, so its stream starts clean; otherwise the tunnel's outcome stands |
| Rpc.DecodeIgnoresOrder | src/rpc.rs:51-165 | permuting the members of a response changes nothing |
| Rpc.DecodeErrorIgnoresOrder | src/rpc.rs:177-254 | permuting the members of the error object changes nothing |
| Rpc.UnknownMemberIsIgnored | src/rpc.rs:51-165 | an unknown member anywhere at the top level, repeated or not, changes nothing |
| Rpc.UnknownErrorMemberIsIgnored | src/rpc.rs:177-254 | nor does one in the error object |
| Rpc.IdIsTrustedExactlyWhenSoleU64 | src/rpc.rs:51-165 | an id is reported, with a response or a violation, exactly when there is one `id` member and it is a u64 |
| Rpc.AcceptedExactlyWhenWellFormed | src/rpc.rs:51-165 | a response is accepted exactly when it has a sole `jsonrpc` that is 2.0 and either a sole `result` and no `error` or a sole well-formed `error` and no `result`; the id, which section 5 of JSON-RPC 2.0 also asks for, may be missing or unusable |
| Rpc.ErrorIsValidExactlyWhenWellFormed | src/rpc.rs:177-254 | an error object is valid exactly when it has a sole `code` that is an i32, a sole `message` that is a string, and at most one `data` |
| Rpc.AcceptedSays | src/rpc.rs:51-165 | an accepted response carries the value of its only `result`, or the code, message and data of its only error object, exactly as its members say |
| Rpc.ErrorObjectSays | src/rpc.rs:177-254 | a valid error object carries its only `code` by its signed value, from -2147483648 to 2147483647, the text of its only `message`, and its only `data` if there is one; and whatever has these is valid |
| Rpc.Parse | src/rpc.rs:51-165 | the one-pass seen and duplicated flags compute the counting definition |
| Rpc.ParseErrorObject | src/rpc.rs:177-254 | so does the scan of the error object, which stops at the first repeat |
| Libcamera.EachRequestIsInOnePlace | src/libcamera.rs:635-785 | in every run each request is in exactly one of camera, completion channel, live frames, delayed-requeue channel and lost ones |
| Libcamera.CycleIsClosed | src/libcamera.rs:635-785 | with nothing cancelled and nothing refused, at the start or later, no request is ever lost |
| Libcamera.LiveFrameKeepsItsBuffer | src/libcamera.rs:348-368 | while any cropped or scaled copy of a native frame lives, its buffer is neither in the camera nor on its way back |
| Libcamera.TokenSendsOnce | src/libcamera.rs:211-221 | each token sends its cookie at most once, and has done so exactly when no copy is left |
| Libcamera.FrameIsHandedOnExactlyWhen | src/libcamera.rs:677-784 | a turn of any run makes exactly one token, for the request it received, exactly when that was captured, the source takes it and there is a native buffer for it, and then does not put it back; any other request received is put back, or lost if refused; an unshared frame is on its way back after the sink |
| Libcamera.CopiesAreCounted | src/libcamera.rs:348-368 | every crop or scaling makes a copy and every drop ends one, so a frame dropped fewer times than it was copied is still there |
| Libcamera.CompletionReachesTheLoop | src/libcamera.rs:554-571 | a cancelled request is lost, a successful one is handed on if it can be, and any other is put back |
| Libcamera.RefusedStartEndsTheCapture | src/libcamera.rs:652-654 | a capture refused at the start runs no turn: the requests before the refused one stay with the camera and the others are lost |
| Libcamera.CaptureLoop.QueueAll | src/libcamera.rs:652-654 | every request starts in the camera, unless one is refused, which ends the capture |
| Libcamera.CaptureLoop.RequeueRequest | src/libcamera.rs:1088-1104 | the request goes back to the camera, or is lost when there is none of that cookie or the camera refuses it |
| Libcamera.CaptureLoop.ReleaseToken | src/libcamera.rs:217-221 | dropping the last copy sends the cookie, dropping another does not |
| Libcamera.CaptureLoop.Others | src/libcamera.rs:554-571 | completions, copies and drops made elsewhere, in order |
| Libcamera.CaptureLoop.RequeueDelayed | src/libcamera.rs:672-675 | the delayed-requeue channel is emptied in order, with an answer of the camera for each requeue and others acting in between |
| Libcamera.CaptureLoop.OnNativeFrameBuffer | src/libcamera.rs:820-850 | a native frame takes one share of its token and gives it up after the sink had it |
| Libcamera.CaptureLoop.HandleCompletion | src/libcamera.rs:677-784 | which completions requeue at once and which hand their buffer to a frame |
| Libcamera.CaptureLoop.RunCaptureLoop | src/libcamera.rs:635-785 | the whole loop executes the specification's run |
| AmfEncoder.SubmissionsAreCoherent | src/video_codecs/amf.rs:283-457 | over all call sequences with failing rebuilds and reconfigurations, a submitted frame meets hardware of its own size and of the rates the last call asked for, kilobits being the least that hold the bits |
| AmfEncoder.FailedInitIsUnsafeExactlyWhen | src/video_codecs/amf.rs:262-281 | after a failed `init_encode`, some sequence of calls without a release or another initialisation leads to a frame submitted to hardware of another size or other rates exactly when an unmarked encoder that differs from what was asked is left behind |
| AmfEncoder.FrameIsSubmittedExactlyWhen | src/video_codecs/amf.rs:283-457 | a frame is submitted exactly when there is a callback, it is not empty in size or type, its encoder is or can be made ready, and a surface takes its planes |
| AmfEncoder.StatusSays | src/video_codecs/amf.rs:283-457 | each status but that of other failures is returned exactly in its case: no callback, no size or planes too large to address, no output asked for, or taken by the hardware |
| AmfEncoder.RatesAreAskedFor | src/video_codecs/amf.rs:485-492 | the rates asked for, by bounds: whole frames from one to the largest u32, and the saturated start bitrate or the larger sum, never less than one |
| AmfEncoder.ReleaseForgets | src/video_codecs/amf.rs:459-483 | there is a callback exactly if the last registration set one and no release followed, and an encoder only if a call that can build one came after every release |
| AmfEncoder.StepKeepsFresh | src/video_codecs/amf.rs:198-257 | every call but a failed `init_encode` keeps the flags truthful about the hardware |
| AmfEncoder.AmfVideoEncoder.RebuildEncoder | src/video_codecs/amf.rs:198-232 | a rebuild takes the noted size and rates and clears both flags, or changes nothing |
| AmfEncoder.AmfVideoEncoder.ReconfigureEncoder | src/video_codecs/amf.rs:234-257 | a reconfiguration changes the rates only |
| AmfEncoder.AmfVideoEncoder.InitEncode | src/video_codecs/amf.rs:262-281 | size and rates are stored before the rebuild is tried |
| AmfEncoder.AmfVideoEncoder.UpdateHardware | src/video_codecs/amf.rs:320-336 | a failed reconfiguration falls back to a rebuild |
| AmfEncoder.AmfVideoEncoder.EncodeFrame | src/video_codecs/amf.rs:283-457 | which frames are submitted, to which hardware, and the status of those that are not, overflowing plane sizes included |
| AmfEncoder.AmfVideoEncoder.SetEncoderRates | src/video_codecs/amf.rs:485-492 | the new rates, and a pending reconfiguration |
| AmfEncoder.AmfVideoEncoder.ReleaseEncoder | src/video_codecs/amf.rs:472-483 | the hardware and both flags are dropped |
| AmfEncoder.AmfVideoEncoder.RegisterCallback | src/video_codecs/amf.rs:459-470 | only the callback changes |
| CodecPreference.MergeOverrides | src/video_codec_preference.rs:155-163 | after a merge a key's answer is the argument's last entry for it, else the old answer |
| CodecPreference.MergeKeepsKeys | src/video_codec_preference.rs:155-163 | existing keys keep their order, no key is lost or invented, and keys stay unique |
| CodecPreference.MergeSparesHiddenEntries | src/video_codec_preference.rs:113-121 | an entry behind an earlier one of its key is not touched |
| CodecPreference.OfferedExactlySupported | src/video_codec_preference.rs:79-94 | a capability yields one entry per supported key and nothing else |
| CodecPreference.UniqueByCounting | src/video_codec_preference.rs:235-250 | counting over the ten table keys decides uniqueness over all entries |
| CodecPreference.VerdictIsDetermined | src/video_codec_preference.rs:215-257 | the order of the checks leaves one verdict for any input |
| CodecPreference.VerdictSays | src/video_codec_preference.rs:215-318 | what each verdict tells about the two lists: accepted entries are served by an implementation of their name, and the errors say whether that is missing, serves neither direction, or only the other one |
| CodecPreference.DefaultValidatesExactlyWhen | src/connection_context.rs:82-102 | merging the entries of a capability list gives a list valid for it exactly when no two capabilities share a name |
| CodecPreference.DefaultPicksTheLast | src/connection_context.rs:82-102 | for each key that merge picks the last capability that supports it |
| CodecPreference.Preference.FromCapability | src/video_codec_preference.rs:79-94 | the nested loops collect exactly those entries, in table order |
| CodecPreference.Preference.GetOrAdd | src/video_codec_preference.rs:124-142 | an existing entry is returned unchanged, a missing one is appended |
| CodecPreference.Preference.HasImplementation | src/video_codec_preference.rs:145-149 | implementations are compared by name |
| CodecPreference.Preference.Merge | src/video_codec_preference.rs:155-163 | the in-place loop computes the merge that the lemmas speak of |
| CodecPreference.Preference.Validate | src/video_codec_preference.rs:215-257 | the verdict names the first failing check and the first entry that fails it |
| CodecPreference.ValidateCapabilities | src/video_codec_preference.rs:259-274 | the first capability whose name was seen before, if any |
| CodecPreference.ValidateCodec | src/video_codec_preference.rs:276-318 | an entry passes exactly when its implementation exists and serves it; the errors are told apart by the opposite direction |
| CodecPreference.DefaultPreference | src/connection_context.rs:82-102 | the loop of merges computes the default |
| Alignment.AlignDown | src/video_codec.rs:162-180 | there is a result exactly when a positive alignment fits, and it is a positive multiple not above the value |
| Alignment.AlignDownIsLargest | src/video_codec.rs:162-180 | no larger multiple fits |
| Alignment.AligningTwiceIsOnce | src/video_codec.rs:182-220 | aligned settings stay as they are |
| Alignment.AlignedRoundsDown | src/video_codec.rs:182-220 | settings can be aligned exactly when the codec is the adapter's and the grid fits into every size; then every width and height is the largest multiple that fits and nothing else changes |
| Alignment.VideoCodec.ApplyAlignment | src/video_codec.rs:182-220 | all sizes are aligned, or the codec is the wrong one or some present size cannot be and nothing changes |
| Alignment.VideoCodec.PendingStreams | src/video_codec.rs:196-207 | sizes of all present streams are worked out before anything is written |
| Alignment.VideoCodec.SetStreams | src/video_codec.rs:213-218 | every present stream gets its own size, missing ones stay missing |
| Alignment.CropIsEvenInsideAndCentred | src/video_codec.rs:277-281 | the crop starts on an even pixel, lies inside the frame and is off centre by at most three pixels |
| Alignment.BuildAlignedFrame | src/video_codec.rs:259-296 | a frame handed on has exactly the target size, lies inside the original and is off centre by at most three pixels; it is refused exactly when too small or the crop fails |
| Alignment.StepKeepsSound | src/video_codec.rs:299-356 | the adapter answers with its own error exactly when it asked the encoder nothing |
| Alignment.EncoderOnlySeesTargetFrames | src/video_codec.rs:300-341 | over all call sequences the wrapped encoder is only initialised with aligned sizes and only gets frames of the aligned size it was last initialised with, never one before |
| Alignment.FrameReachesEncoderExactlyWhen | src/video_codec.rs:324-341 | over all call sequences a frame reaches the encoder exactly when the last initialisation could be aligned, the frame is no smaller than that size, and is that size or could be cropped |
| Alignment.CallReachesEncoder | src/video_codec.rs:300-356 | an initialisation reaches the encoder exactly when it can be aligned, rounded down; the other calls are handed on |
| Alignment.AlignmentEncoderAdapter.InitEncode | src/video_codec.rs:300-322 | the encoder is initialised with an aligned copy, and after a failure there is no target |
| Alignment.AlignmentEncoderAdapter.Encode | src/video_codec.rs:324-341 | without a target, or with an unfit frame, nothing reaches the encoder |
| Inflate.ChunkedRefinesWhole | src/zlib.rs:8-46 | for any incremental decompressor and any chunk size, the chunked pass succeeds exactly when decoding everything succeeds, finishes and fits, with the same output |
| Inflate.TooBigMeansSomeBoundaryIs | src/zlib.rs:24-34 | a size error is reported exactly when some chunk end decodes to more than the limit |
| Inflate.ErrorKindDiffersExactlyWhen | src/zlib.rs:22-34 | the chunked pass reports another kind of error than decoding everything at once exactly when the stream is broken and some chunk end before that decodes to more than the limit |
| Inflate.BrokenStreamIsReportedAsTooBig | src/zlib.rs:14-34 | it happens with chunks of 4096 bytes and any limit: a stream whose first chunk decodes to one byte too many and which breaks on byte 4097 is reported as too big |
| Inflate.DecompressZlib | src/zlib.rs:8-46 | the loop computes the chunked pass; its output buffer is after every chunk what the bytes so far decode to and never more than the limit, and an error is that of the next chunk |
| Inflate.InflateChunk | src/zlib.rs:22-37 | one chunk is fed and its output appended if all of it still fits, and the error says which check failed |
| H264.TableOrderIsIrrelevant | src/video_codecs/h264.rs:254-263 | any order of the pattern table finds the same profile |
| H264.RowsClash | src/video_codecs/h264.rs:138-202 | any two patterns disagree in the profile_idc or in a bit both fix |
| H264.ProfileFollowsFlags | src/video_codecs/h264.rs:138-202 | the table finds a profile exactly when profile_idc and the constraint flags are those of that profile |
| H264.RecognisedExactlyWhen | src/video_codecs/h264.rs:216-266 | a profile-level-id is recognised exactly when its level_idc is known and its flags are those of a profile |
| H264.ReservedBitsAreAlwaysZero | src/video_codecs/h264.rs:136-137 | a profile-level-id with a reserved bit set is not recognised |
| H264.CapabilityFollowsLevelIdc | src/video_codecs/h264.rs:86-106 | capability is ordered as level_idc is, with level 1b below level 1.1 |
| H264.HexRoundTrip | src/video_codecs/h264.rs:335-342 | a profile-level-id survives being written and read as six hex digits |
| H264.DigitsInOrder | src/video_codecs/h264.rs:335-342 | the three bytes come in order, each with its high digit first, in either case |
| H264.OfferIsTakenExactlyWhen | src/video_codecs/h264.rs:287-329 | for all formats: an offer is taken, unchanged, exactly when it is H.264 in packetization mode 1, its six hex digits name a known level and, by their flags, the profile of the required ones, and the level is no lower |
| H264.RequirementIsBlamedExactlyWhen | src/video_codecs/h264.rs:309-320 | the required format is found unusable only after the offer itself has passed |
| H264.ReflexiveExactlyWhenRecognised | src/video_codecs/h264.rs:335-342 | a track's own format is acceptable to it exactly when its profile-level-id is recognised |
| H264.ResolveIsTransitive | src/video_codecs/h264.rs:287-329 | acceptance is transitive and hands on the last format |
| H264.MutualAcceptanceMeansEqual | src/video_codecs/h264.rs:287-329 | formats that accept each other stand for the same profile and level |

## Left out

- The part of `run` before the loop (URL shuffling, the first connect and flush) and the `redirect` flag of the
  connect message; a run that ends there never has a channel, a request or a command.
- Completeness claims are for runs that leave the loop by `break`: an early error return skips the close
  notifications and acknowledgements in the source as well.
- Contents of signaling messages, SDP, statistics and tracks: only whether handling them succeeds is modelled.
- JSON text: messages are values, so a syntax error is a case of the payload. Repeated members, escapes and number
  ranges are modelled in `Rpc.dfy`.
- Stopping a timer task is taken as atomic with its send, as is dropping a pending request with stopping its timer.
- The WebSocket library may change its state at any point between the loop's own steps, but only forward from
  connecting to closed; which events it reports is unconstrained.
- Wrap-around of the 64-bit RPC id counter and of the 64-bit grace generation.
- The session a message belongs to is the one in which its channel was registered. A stale generation of grace timers
  that a redirect drained is not replaced, so the model does not claim that every armed grace period ends the run.
- `on_websocket_close`, and other callbacks of the event handler than opening and closing of channels.
- The HTTP decoder of the proxy's response: on which bytes it gives up, and which heads it accepts, are predicates of
  the bytes.
- Pixels, mapped memory, file descriptors, control tables and timestamps of the camera; a copied frame only matters
  in that it does not hold its buffer.
- The AMF runtime, surfaces and the decoder: each call succeeds or fails.
- `AmfEncoder.SubmissionsAreCoherent`: assumes that a failed `init_encode` is followed by a release, because the
  property is false otherwise; the exact condition is in `AmfEncoder.FailedInitIsUnsafeExactlyWhen`.
- Capabilities are a name and the set of supported keys; resolving formats and creating encoders is not modelled.
- The decompressor itself: any incremental one is allowed (`Inflate.Incremental`).
- Hex digits of a profile-level-id are read in either case; the parser is in another crate that is not part of this
  model. Codec names are mapped to codec types by a parameter for the same reason.
- TLS, certificates, DNS, TCP, proxy authentication, random numbers, audio codec files (near copies of the video ones),
  builders, getters, error texts, logging, examples and end-to-end tests.
