# remoteapp — a Dafny model of the session, signaling and control-input core

remoteapp lets a host share a screen with a client over a peer-to-peer
connection. The client then drives the host's mouse and keyboard. A small
relay carries the signaling: room membership, offers, answers and ICE
candidates. This project models the logic that decides what happens with
each event:

- **Negotiation** (`negotiation.dfy`): the peer connection as a value. It
  holds the signaling state (`stable`, `have-local-offer`,
  `have-remote-offer`, `closed`), the current and pending remote
  descriptions, and the candidates it has accepted. Its transitions follow
  the offer/answer state machine of section 3.2 of RFC 8829. Rollback is as
  in section 4.1.10.2 of RFC 8829. A transition the browser would reject
  returns `Err`: one made in the wrong signaling state, a remote offer or
  answer whose SDP body does not parse, or a malformed candidate.
- **Session** (`session.dfy`): the refs and state of `App` as one
  `Session` class. It holds the view, role, room id, codes, candidate
  queue, peer, data channel, sampling-timer flag, and the room captured by
  the installed `user-connected` handler. What the session sends to the
  relay is appended to `outbox`. Each handler is a method. Its contract ties
  the new `State()` snapshot to the old one. The invariant `Valid()` says
  that no candidate waits in the queue once the peer is open and has a
  remote description.
- **RoomCode** (`roomcode.dfy`): the host's six-digit connection code and
  the client's length check.
- **JsString** (`jsstring.dfy`): the JavaScript `length` of a string,
  which counts UTF-16 code units, so a character outside the Basic
  Multilingual Plane counts twice.
- **Control** (`control.dfy`): the control messages, their flat JSON
  record, and which party sends mouse-button and wheel messages.
- **Keyboard** (`keyboard.dfy`): the browser-key-to-injector-key table,
  key messages, and releasing modifiers on blur.
- **Pointer** (`pointer.dfy`): the letterbox mapping from the video
  element to the drawn video, and the `MousePosition` sampler behind
  `sendMouseData`.
- **Dispatcher** (`dispatcher.dfy`): the host's `control-input` handler in
  `main.js`. It maps one parsed record, the display size and the scale
  factor to at most one native injector call.

Behaviour of the code that the model keeps as written:

- If screen capture fails in `selectSource`, the room id, connection code
  and role are already set (`Session.Session.SelectSource`). The session is
  not restored to how it was before the attempt.
- On glare, any side that receives an offer outside `stable` rolls back and
  answers. If both sides receive each other's offer while they both have a
  local offer, both yield. Each answer then arrives in `stable` and is
  ignored (`Negotiation.GlareYields`).
- A stale or duplicate answer still switches the view to `active`
  (`Session.Session.OnAnswer`).
- A closed peer rejects the rollback and the remote offer. The offer
  handler then stops before answering (`Session.Session.OnOffer`).
- On glare, a malformed incoming offer is refused, but the rollback issued
  beside it has already taken effect. The local offer is abandoned, no
  answer is sent, and the answer to the abandoned offer is later rejected
  (`Negotiation.GlareWithBadOfferAbandonsLocalOffer`).
- A malformed answer in `have-local-offer` makes the handler throw before
  the drain and before the view changes. Nothing changes
  (`Session.Session.OnAnswer`).
- An emoji key (one character, two UTF-16 code units) is neither in the
  table nor of length 1, so it is not sent (`Keyboard.AstralKeyDropped`).
- The drain does not stop at a candidate that fails. It logs the failure
  and goes on to the next candidate (`Negotiation.ApplyAllInOrder`).
- `cleanupConnection` never removes the `user-connected` handler. The room
  that handler captured therefore survives teardown (`offerRoom`).
- `remoteDescription.type` is always present once `remoteDescription` is
  set. So the candidate handler's guard (src/App.js:96) and the drain's
  guard (src/App.js:83) test the same thing.

## Model

| member | source | states |
|---|---|---|
| Negotiation.NewPeer | src/App.js:224-226 | a new peer connection is `stable`, with no remote description and no candidates |
| Negotiation.YieldToOffer | src/App.js:102-103 | the glare rollback succeeds exactly for an open peer and leaves it `stable` with its current remote description and candidates kept |
| Negotiation.ApplyOffer | src/App.js:100-104 | the offer step (rollback then remote offer, or remote offer directly) succeeds exactly when the peer is not closed and the offer is well-formed; it leaves the peer in `have-remote-offer` with the offer as remote description, and keeps the current description and the candidates |
| Negotiation.AnswerOffer | src/App.js:100-106 | taking an offer and setting the local answer succeeds exactly for an open peer and a well-formed offer; the peer is then `stable` with the offer as current remote description, no pending one, the same candidates, and it accepts candidates |
| Negotiation.ApplyAll | src/App.js:84-88 | the drain keeps the signaling state and both remote descriptions, and only appends to the candidates, at most one per queued candidate |
| Negotiation.AnswerOnlyAfterLocalOffer | src/App.js:110-113 | a remote answer is accepted if and only if the peer is in `have-local-offer` and the answer is well-formed; it then returns to `stable` with the answer as remote description |
| Negotiation.ExchangeCompletes | src/App.js:100-117 | one offer/answer exchange of well-formed descriptions between two stable peers leaves both `stable`, each holding the other's description as its remote one |
| Negotiation.GlareYields | src/App.js:100-109 | a peer with an outstanding local offer yields to a well-formed incoming offer: after answering it is `stable` with that offer as current remote description, and a later answer is rejected |
| Negotiation.GlareWithBadOfferAbandonsLocalOffer | src/App.js:101-103 | a peer with an outstanding local offer that receives a malformed offer refuses it, yet is rolled back to `stable` with its remote description unchanged, and then rejects any answer |
| Negotiation.ApplyAllInOrder | src/App.js:84-88 | draining into a peer that accepts candidates adds exactly the well-formed queued candidates, once each, in queue order, and changes nothing else in the peer |
| Negotiation.ApplyAllRejected | src/App.js:86-87 | a peer that is closed or lacks a remote description is left unchanged by every candidate |
| Negotiation.AcceptedKeepsWellFormed | src/App.js:84-88 | every well-formed queued candidate is among those applied, so none is lost |
| Negotiation.AcceptedAppend | src/App.js:84-88 | the candidates applied from two queues in succession are those applied from their concatenation, in the same order |
| JsString.Length | src/App.js:132 | the JavaScript length of a string is at least its number of characters |
| JsString.BmpLength | src/App.js:217 | a string of characters from the Basic Multilingual Plane has a JavaScript length equal to its number of characters |
| JsString.LengthOne | src/App.js:132 | a string has JavaScript length 1 exactly when it is one character from the Basic Multilingual Plane |
| RoomCode.GenerateCode | src/App.js:13 | for any draw in [0,1) the code has six decimal digits and reads as a number in [100000, 999999], so it passes the client's JavaScript length check |
| RoomCode.DecimalRoundTrip | src/App.js:13 | reading the decimal string of a number gives the number back |
| RoomCode.DecimalLength | src/App.js:13 | a number in [10^k, 10^(k+1)) is written with exactly k+1 characters |
| Control.Encode | src/App.js:262-282 | every control message is serialised to a record of one of the six known types, and reading that record back by type recovers the message with all its populated fields |
| Control.Decode | main.js:81-119 | a record stands for a message exactly when its type is one of the six known ones, and then for a message of that type |
| Control.ButtonName | src/App.js:267 | mouse button 2 is `right`, every other button is `left` |
| Control.ButtonMessage | src/App.js:264-277 | a button message is produced if and only if the role is client and the channel is open; it carries the given direction and mapped button |
| Control.WheelMessage | src/App.js:278-284 | a scroll message is produced if and only if the role is client and the channel is open; it carries the raw wheel deltas |
| Keyboard.TableIsLowerCase | src/App.js:15-22 | every table entry is a non-empty name without upper-case letters |
| Keyboard.RobotKey | src/App.js:130-133 | every translated key name is non-empty and has no upper-case letter |
| Keyboard.RobotKeyCases | src/App.js:130-133 | a mapped key gives its table entry; another key of JavaScript length 1 (one character of the Basic Multilingual Plane) gives itself lower-cased; any other unmapped key gives nothing |
| Keyboard.AstralKeyDropped | src/App.js:132 | an emoji key, two UTF-16 code units long, has no translation |
| Keyboard.KeyMessages | src/App.js:124-134 | at most one key message; one exactly when the channel is open and the key has a translation, and it carries the event's direction and the translated name |
| Keyboard.ReleaseAll | src/App.js:139 | over an open channel, one key-up per name in the given order; over a closed channel, none |
| Keyboard.BlurMessages | src/App.js:137-140 | over an open channel the blur sends key-up for alt, control, shift and command in that order; over a closed one it sends nothing |
| Keyboard.BlurReleasesEveryModifier | src/App.js:137-140 | for each modifier key (Shift, Control, Alt, AltGraph, Meta) the key-down the client sends has a matching key-up among the blur messages |
| Pointer.RenderRect | src/App.js:242-256 | the render rectangle fills the container on one axis and fits on the other, is centred (equal padding on each side), and keeps the video's aspect ratio |
| Pointer.Percentages | src/App.js:257-259 | the percentages locate the pointer inside the render rectangle: its left edge plus the x percentage of its width is the pointer's x, and likewise vertically |
| Pointer.MoveMessage | src/App.js:257-262 | a move message is produced exactly when both percentages are in [0,1], and it is the mouse move carrying exactly those two percentages |
| Pointer.MoveSentIffOverVideo | src/App.js:257-262 | a move message is produced if and only if the pointer lies on the drawn video, never in the padding |
| Pointer.CentreMapsToHalf | src/App.js:242-262 | the centre (960,540) of a 1920x1080 box showing 1280x720 video maps to (0.5, 0.5) |
| Pointer.TopPaddingDropped | src/App.js:242-261 | for 1280x720 video in a 1000x1000 box, the pointer at (500, 50) is in the top padding and no message is produced |
| Pointer.MousePosition.constructor | src/App.js:38 | the position starts at (0,0) with nothing pending |
| Pointer.MousePosition.Record | src/App.js:233-237 | a pointer move records the position and marks it pending |
| Pointer.MousePosition.Sample | src/App.js:238-263 | nothing is sent unless the channel is open, a position is pending and the video has a width; once bounds and video size are known the pending flag is cleared even if the sample is dropped, and what is sent is exactly the letterbox mapping's message |
| Dispatcher.Round | main.js:87-88 | `Math.round` lands within half a unit of its argument, with halves rounding up |
| Dispatcher.Pixel | main.js:87-88 | the pixel coordinate is within half a pixel of percent × size × scale |
| Dispatcher.Perform | main.js:86-119 | each message becomes the injector call of its own kind; buttons and keys pass their name and direction through, and a scroll is the wheel delta divided by 20 |
| Dispatcher.Dispatch | main.js:81-121 | any parsed record yields at most one injector call |
| Dispatcher.HandleControlInput | main.js:77-126 | at most one injector call, and none for data that does not parse |
| Dispatcher.DispatchMeansDecode | main.js:81-121 | the dispatcher acts exactly on the six known types, performing the one call each means; any other type, including other `mouse…` strings, makes no call |
| Dispatcher.DispatchEncoded | main.js:81-121 | dispatching the record of any client message performs exactly that message's native call |
| Dispatcher.MoveWithinHalfPixel | main.js:86-92 | `mousemove` makes exactly one pointer move, within half a pixel of percent × size × scale on each axis |
| Dispatcher.MoveStaysOnScreen | main.js:86-92 | percentages in [0,1] land between 0 and the rounded scaled screen size on each axis |
| Dispatcher.ButtonsDoNotMove | main.js:93-98 | `mousedown`/`mouseup` make exactly one button toggle, in the matching direction, and no pointer move |
| Dispatcher.MissingScaleIsOne | main.js:84 | a display reporting scale factor 0 is handled exactly as one reporting 1 |
| Dispatcher.WheelOfHundredScrollsFive | main.js:102-111 | a client wheel with deltaY = 100 is sent raw and scrolls the host by (0, 5) |
| Session.Drained | src/App.js:81-89 | after the drain no candidate waits for an open peer with a remote description, the queue never grows, and nothing but the peer and the queue changes |
| Session.DrainedEffect | src/App.js:81-89 | the drain leaves the state untouched unless the peer is open with a remote description; otherwise it empties the queue and gives the peer exactly the well-formed queued candidates in order, changing nothing else |
| Session.EarlyCandidatesReplayedAfterOffer | src/App.js:94-109 | candidates queued before an offer are, after the offer is answered, applied once each in arrival order, with none left queued and the peer `stable` on that offer |
| Session.TornDown | src/App.js:59-79 | after teardown the timer, channel and peer are gone, the queue, room id and codes are empty, the role is unset, the view is the dashboard, and nothing was emitted |
| Session.TearDownIdempotent | src/App.js:59-79 | tearing down twice leaves the same state as tearing down once |
| Session.Session.constructor | src/App.js:25-41 | the session starts on the dashboard with no role, room, peer, channel, queue or timer |
| Session.PeerReplaced | src/App.js:224-226 | a fresh peer takes the old one's place; if there was an old peer, the channel the session holds now reads as closed; nothing else changes |
| Session.Session.CreatePeerConnection | src/App.js:224-232 | the new state is `PeerReplaced` of the old one: any previous peer is closed, closing its channel, and replaced by a fresh one |
| Session.Session.OnLocalCandidate | src/App.js:227-231 | a discovered local candidate is emitted to the relay with the current room id; the end-of-candidates event emits nothing |
| Session.Session.ProcessCandidateQueue | src/App.js:81-89 | the loop that shifts candidates off the queue and applies each yields exactly the drain transition |
| Session.Session.OnIceCandidate | src/App.js:94-99 | ignored without an open peer; applied at once when a remote description exists; otherwise appended to the tail of the queue with nothing else changed |
| Session.Session.OnOffer | src/App.js:100-109 | creates a peer if none exists, takes a well-formed offer (rolling back on glare), answers, drains the queue and emits one answer tagged with the current room id; a malformed offer leaves only the rollback, with no answer; a closed peer leaves everything unchanged |
| Session.Session.OnAnswer | src/App.js:110-117 | a no-op without an open peer; in `have-local-offer` a well-formed answer is applied, the queue drained and the view made active, while a malformed one changes nothing; in the other open states only the view becomes active |
| Session.Session.OnUserConnected | src/App.js:205-212 | with a stable or closed peer (a closed one replaced first) a local offer is set and emitted to the captured room; in every other case nothing changes |
| Session.Session.StartHost | src/App.js:172-177 | the source picker opens once the source list arrives; otherwise nothing changes |
| Session.Session.SelectSource | src/App.js:178-214 | the code, room id and role are set first; on successful capture a fresh peer and a connecting data channel are made, the room is joined, the view waits and the offer handler captures the room; the room id then passes the client's length check |
| Session.Session.Dismiss | src/App.js:313 | closing the source picker or the code form returns to the dashboard |
| Session.Session.StartClient | src/App.js:215 | the role becomes client and the code form opens |
| Session.Session.TypeCode | src/App.js:355-359 | the typed text becomes the input code |
| Session.Session.ConnectToHost | src/App.js:216-223 | a code whose JavaScript length is not six is refused with no change; a code of length six becomes the room id, a fresh peer replaces any old one (whose channel is then closed), and `join-room` is emitted with that code |
| Session.Session.OnTrack | src/App.js:220 | the arrival of the remote track makes the view active |
| Session.Session.OnDataChannel | src/App.js:221 | the channel opened by the host becomes the session's channel |
| Session.Session.StartSampling | src/App.js:154-170 | the sampling timer starts only for a client in the active view |
| Session.Session.Cleanup | src/App.js:59-79 | teardown resets every field as `TornDown` states; calling it again changes nothing |
| Session.Session.OnUserDisconnected | src/App.js:118 | a remote disconnect tears the session down |
| Session.Session.StopSharing | src/App.js:285-288 | `leave-room` is emitted for the current room, then the session is torn down |

## Left out

- `preload.js` is a thin bridge with no logic and is not part of this model.
- Window creation, `get-screen-sources`, `set-source` and `resize-window` in `main.js` are not modelled. Neither is the `resizeWindow` effect (src/App.js:44-56). These are windowing and capture plumbing.
- socket.io is not modelled. Emissions are appended to `outbox`, and each incoming relay event is a method call. Asynchronous interleaving between `await`s is not modelled. Each handler runs to completion.
- The `Promise.all` of rollback and remote offer (src/App.js:103) is one atomic step. The browser queues the two operations in that order.
- The peer connection keeps only its signaling state, its remote descriptions and its accepted candidates. Local descriptions, ICE, media tracks and `addTrack` are not modelled. SDP bodies are opaque strings supplied by the caller, each incoming one with a flag saying whether the browser can parse it.
- Closing a peer or a data channel that `cleanupConnection` then drops is not observable here, because the peer and the channel are values. The one observable case is modelled: when `createPeerConnection` closes the old peer, the channel the session still holds reads as closed (`PeerReplaced`).
- The data channel's ready state changes inside the browser. The model takes each new state as given (`OnDataChannel`, and the `channelOpen` parameter of the senders).
- Media capture and playback are not modelled: `getUserMedia`, stopping tracks and clearing `srcObject` (src/App.js:61-65, 195-198), `remoteStreamRef`, and `play()`.
- UI-only state is not modelled: `status`, `sourceList`, `activeTab`, alerts, and all rendering.
- The sampling effect's cleanup (src/App.js:167) stops the interval without clearing `loopRef`. The model's timer flag is reset only by teardown.
- The interval cadence (33 ms), `ResizeObserver` and listener registration are not modelled. This includes the ineffective `removeEventListener` calls (src/App.js:147-148).
- Key listeners exist only for a client in the active view (src/App.js:122-123). The keyboard functions take the channel state as a parameter and do not restate that guard.
- `generateCode` takes the `Math.random()` draw as a parameter.
- JSON is not modelled. A parsed record has every field, and a field the sender omitted reads as 0 or "". Data that does not parse, and a record whose `type` is not a string, are `None` for `HandleControlInput`.
- Errors that robotjs raises inside an injector call (such as an unknown key name) are caught by the handler. The model returns the call that is attempted.
- Numbers are exact reals, not IEEE doubles. NaN and infinities are not modelled.
- Pointer.RenderRect: requires positive box and video dimensions (a zero-height video would divide by zero in the source). `Sample` requires a non-negative video width, a positive video height and a positive box width and height for the same reason.
- Keyboard.ToLower: lower-cases only the ASCII letters. Other characters pass through, whereas `toLowerCase` maps all Unicode case pairs.
- JsString.Length: counts UTF-16 code units of a sequence of Unicode scalar values. A JavaScript string holding an unpaired surrogate cannot be written as a Dafny string and is not modelled.
