# Ghost Chat session model

A Dafny model of the two-party chat page: the `PeerManager` that elects host or guest for a
room and keeps the one data connection of a session, the page state that records the statuses
and messages it reports, the room form that normalises the room id, and the message composer
that guards sending.

- `types.dfy` (`Types`): `ConnectionStatus`, `Message`, the envelope payload and the datum
  carried over a connection.
- `js_string.dfy` (`JsString`): JavaScript's `trim` and `toLowerCase`, with the whitespace set
  of ECMAScript.
- `peer_service.dfy` (`PeerService`): class `PeerManager`. PeerJS is replaced by events
  delivered one at a time: the result of registering a peer (`open`, `error` with its type), an
  inbound `connection`, and `open`, `data`, `close` and `error` on a connection. The manager keeps
  a registry of the Peer objects it constructed and of the connections it was handed; its two
  fields `peer` and `connection` point into them. Every call of `onStatusChange` and
  `onMessageReceived` is recorded in `calls`, and every `connection.send` in `sent`.
- `chat_app.dfy` (`ChatApp`): class `App` with the room id, the log, the status and the current
  manager; the inbound-data reducer `Receive`.
- `join_room.dfy` (`JoinRoom`), `message_input.dfy` (`MessageInput`): the two forms.
- `scenarios.dfy` (`Scenarios`): runs of managers through PeerJS events, proved from the
  contracts of the class alone.

The model follows the code as written: ids end in `-ghost-1` and `-ghost-2`; a `close` on the
session's connection reports `'connecting'` again rather than ending the session; host errors
other than `'unavailable-id'` never report `'error'`; the guest peer has no error handler;
nothing marks a manager as torn down, so handlers of a replaced or destroyed connection still
call the callbacks; and the guard of `handleConnection` protects only an open connection, so a
pending one is replaced by the next (`Scenarios.PendingConnectionIsReplaced`,
`Scenarios.CloseAndDestroy`).

Outside the model, as parameters: message ids (`Date.now()`) and timestamps
(`toLocaleTimeString`) are strings passed in; the visibility state is a boolean passed in.

## Model

| member | source | states |
|---|---|---|
| `PeerService.HostId` | services/peerService.ts:34 | the host id is the room id followed by an 8-character suffix (`-ghost-1`), so the room id is its prefix |
| `PeerService.GuestId` | services/peerService.ts:35 | the guest id is the room id followed by an 8-character suffix (`-ghost-2`), so the room id is its prefix |
| `PeerService.HostIdIsNeverAGuestId` | services/peerService.ts:34-35 | no room's host id equals any room's guest id, so the two ids of a room always differ |
| `PeerService.IdsDetermineTheRoom` | services/peerService.ts:34-35 | equal host ids (or equal guest ids) come from equal room ids |
| `PeerService.PeerManager.constructor` | services/peerService.ts:5-17 | both fields null, nothing constructed, no callback called, nothing sent |
| `PeerService.PeerManager.Init` | services/peerService.ts:19-38 | reports `'connecting'` first, then constructs a host peer with id `roomID + "-ghost-1"` and makes it the current peer; the invariant keeps that status the first callback of the manager's life |
| `PeerService.PeerManager.StartAsGuest` | services/peerService.ts:64-65 | constructs a guest peer for the room and makes it the current peer |
| `PeerService.PeerManager.ConnectToPartner` | services/peerService.ts:77-81 | with no current peer nothing happens; otherwise exactly one connection to the target is dialled from the current peer and handed to `HandleConnection` |
| `PeerService.PeerManager.HandleConnection` | services/peerService.ts:83-86 | an open current connection is never displaced and the new one gets no handlers; otherwise the new one becomes `connection` and gets handlers |
| `PeerService.PeerManager.OnPeerOpen` | services/peerService.ts:67-70 | `open` on a guest peer dials `HostId` of its room, once; on the host peer (lines 40-42) nothing changes; no callback runs |
| `PeerService.PeerManager.OnPeerConnection` | services/peerService.ts:44-47 | an inbound connection on either peer (also lines 72-74) goes through the arbiter; no callback runs |
| `PeerService.PeerManager.OnPeerError` | services/peerService.ts:49-61 | only `'unavailable-id'` on a host peer destroys the current peer and starts a guest peer for the same room; every other type, and every error on a guest peer, changes nothing and reports nothing |
| `PeerService.PeerManager.OnConnOpen` | services/peerService.ts:88-90 | the connection's open flag is set; `'connected'` is reported exactly when it carries handlers |
| `PeerService.PeerManager.OnConnData` | services/peerService.ts:92-94 | the datum is passed to `onMessageReceived` unchanged, after all earlier calls, exactly when the connection carries handlers |
| `PeerService.PeerManager.OnConnClose` | services/peerService.ts:96-98 | the open flag is cleared; `'connecting'` is reported exactly when the connection carries handlers |
| `PeerService.PeerManager.OnConnError` | services/peerService.ts:100-102 | `'error'` is reported exactly when the connection carries handlers |
| `PeerService.PeerManager.Handle` | services/peerService.ts:40-102 | dispatches an event to its handler and leaves exactly the state that handler states: peer events call no callback and change the registries and fields as `OnPeerOpen`, `OnPeerConnection` or `OnPeerError` do; a connection event calls the one callback of its handler exactly when the connection carries handlers and updates its open flag; nothing is sent |
| `PeerService.PeerManager.Occupied` | services/peerService.ts:106 | the guard of `send`, also the guard of `handleConnection` at line 84: `connection` is set and reports open |
| `PeerService.PeerManager.Send` | services/peerService.ts:105-111 | returns true, and transmits the datum on `connection`, exactly when `connection` is set and open; otherwise returns false and transmits nothing; no other state changes |
| `PeerService.PeerManager.Destroy` | services/peerService.ts:113-118 | closes the current connection (open flag cleared, `close()` recorded), destroys the current peer, and leaves both fields null; no callback is called and nothing sent; with both already null nothing changes, so a second call is a no-op |
| `PeerService.DialsGoToTheHost` | services/peerService.ts:64-80 | every connection a manager dials targets `HostId` of the room captured by the guest peer that dialled, never that guest's own id |
| `Scenarios.GuestDials` | services/peerService.ts:49-80 | a client refused the host id becomes the guest of the same room and dials the host id, still `'connecting'` |
| `Scenarios.HostAccepts` | services/peerService.ts:19-90 | a client holding the host id accepts the inbound dial and reports `'connected'` when it opens |
| `Scenarios.Rendezvous` | services/peerService.ts:19-102 | a host and a guest of one room end up with one open connection each, having reported `'connecting'` then `'connected'` |
| `Scenarios.TwoClientsMeet` | App.tsx:73-77 | the guest's envelope, sent and delivered unchanged, becomes exactly one host's message from `'them'` with the same text and timestamp |
| `Scenarios.Reconnects` | services/peerService.ts:44-98 | a host whose connection closes reports `'connecting'`; the partner's next dial replaces the closed connection and reports `'connected'` when it opens |
| `Scenarios.CloseAndDestroy` | services/peerService.ts:96-118 | after `destroy`, a late close of the session's connection still reports `'connecting'`, `send` returns false, a second `destroy` changes nothing |
| `Scenarios.PendingConnectionIsReplaced` | services/peerService.ts:83-90 | a pending connection is replaced by the next, yet still reports `'connected'` when it opens; `send` then refuses |
| `Scenarios.HostErrorsOtherThanConflict` | services/peerService.ts:54-60 | any host error type other than `'unavailable-id'` leaves a single host peer and only the initial `'connecting'` |
| `ChatApp.Receive` | App.tsx:42-49 | a datum of type `'message'` appends one record from `'them'` with the payload's text and timestamp, keeping all earlier records; any other datum leaves the log unchanged |
| `ChatApp.ReceiveAllAppends` | App.tsx:42-49 | callbacks over a sequence of arrivals append exactly the messages among them, in arrival order, after the unchanged earlier log |
| `ChatApp.Envelope` | App.tsx:75-77 | the datum `handleSendMessage` sends: type `'message'`, payload of the text and the timestamp |
| `ChatApp.EnvelopeRoundTrip` | App.tsx:73-77 | the envelope built by `handleSendMessage`, received, yields a record with identical text and timestamp |
| `ChatApp.InputDisabled` | App.tsx:130 | the message input is disabled exactly when the status is not `'connected'` |
| `ChatApp.InputSendsOnlyWhenConnected` | App.tsx:130 | with the input disabled whenever status is not `'connected'`, the composer never sends |
| `ChatApp.App.constructor` | App.tsx:11-20 | room id null, empty log, `'disconnected'`, no manager |
| `ChatApp.App.Apply` | App.tsx:42-51 | a status from a manager is stored verbatim; a datum goes through `Receive` |
| `ChatApp.App.Join` | App.tsx:39-56 | setting a new room id destroys the previous manager (its connection closed, its peer destroyed, no callback), then for a non-empty id creates a manager, initialises it and stores `'connecting'`; the log is kept; other managers are untouched |
| `ChatApp.App.Destruct` | App.tsx:30-37 | destroys the manager if there is one (its connection closed, its peer destroyed, no callback, nothing sent), then room id null, log empty, `'disconnected'` |
| `ChatApp.App.VisibilityChange` | App.tsx:59-64 | hidden with a room joined runs `Destruct`, with the same effect on the manager; otherwise nothing changes |
| `ChatApp.App.Unmount` | App.tsx:55 | the effect cleanup destroys the current manager (its connection closed, its peer destroyed, no callback) and changes nothing else |
| `ChatApp.App.SendMessage` | App.tsx:73-85 | the envelope is sent, and a record from `'me'` with the same text and timestamp appended, exactly when the manager's `send` returns true; otherwise the log is unchanged; the manager's fields, registries and callbacks are unchanged |
| `ChatApp.App.Deliver` | App.tsx:41-53 | an event on any manager of the page changes that manager exactly as `Handle` states and calls at most one callback, which the page applies: `'connected'`, `'connecting'` or `'error'` for open, close or error on a connection with handlers, `Receive` for its data, and no change for peer events or connections without handlers |
| `JsString.Trim` | components/JoinRoom.tsx:13 | the result has no whitespace at either end; it is empty exactly when the input is all whitespace |
| `JsString.SkipLeading` | components/JoinRoom.tsx:13 | the scan from the left stops at the first character that is not whitespace, every character passed being whitespace |
| `JsString.SkipTrailing` | components/JoinRoom.tsx:13 | the scan from the right stops just after the last character that is not whitespace, every character passed being whitespace, and never crosses the start of the result |
| `JsString.TrimRemovesOnlyWhitespace` | components/JoinRoom.tsx:13 | the result is the input with a whitespace prefix and a whitespace suffix removed, and nothing else |
| `JsString.TrimIdempotent` | components/JoinRoom.tsx:13 | trimming twice is trimming once |
| `JsString.ToLower` | components/JoinRoom.tsx:14 | same length, each character lower-cased |
| `JoinRoom.Normalize` | components/JoinRoom.tsx:14 | the id is empty exactly when the input is blank, has no whitespace at either end, holds no upper-case letter |
| `JoinRoom.NormalizeIdempotent` | components/JoinRoom.tsx:14 | normalising twice is normalising once |
| `JoinRoom.SecretRoomExample` | components/JoinRoom.tsx:14 | `"Secret Room "` and `"secret room"` both normalise to `"secret room"` |
| `JoinRoom.SubmitDisabled` | components/JoinRoom.tsx:47 | the submit button is disabled exactly when the input is blank |
| `JoinRoom.JoinRoomForm.constructor` | components/JoinRoom.tsx:9 | the input starts empty |
| `JoinRoom.JoinRoomForm.Change` | components/JoinRoom.tsx:39 | the input takes the typed value |
| `JoinRoom.JoinRoomForm.HandleSubmit` | components/JoinRoom.tsx:11-16 | `onJoin` is called exactly when the button is enabled, with the normalised id, which is non-empty and trimmed |
| `MessageInput.Outgoing` | components/MessageInput.tsx:20-25 | a send happens exactly when the draft is not blank and the input is enabled, and carries the trimmed, non-empty draft |
| `MessageInput.SendDisabled` | components/MessageInput.tsx:55 | the send button is disabled exactly when the draft is blank or the input disabled, that is exactly when sending would do nothing |
| `MessageInput.SubmitsOnKey` | components/MessageInput.tsx:28 | a key press takes the send path exactly when it is Enter without Shift |
| `MessageInput.MessageInputBox.constructor` | components/MessageInput.tsx:9 | the draft starts empty |
| `MessageInput.MessageInputBox.Change` | components/MessageInput.tsx:43 | the draft takes the typed value |
| `MessageInput.MessageInputBox.HandleSend` | components/MessageInput.tsx:20-25 | sends as `Outgoing` says; an accepted send clears the draft, a refused one leaves it |
| `MessageInput.MessageInputBox.HandleKeyDown` | components/MessageInput.tsx:27-32 | Enter without Shift takes the send path; any other key sends nothing and keeps the draft |

## Left out

- PeerJS itself: signalling, the STUN configuration (services/peerService.ts:23-32), registration
  uniqueness, NAT traversal, encryption and delivery. Its events are the methods' inputs; any
  event may arrive on any peer or connection the manager has, in any order.
- The 'close' events that `connection.close()` and `peer.destroy()` emit inside PeerJS: the model
  clears the open flag of the closed connection and marks the destroyed peer, and delivers any
  resulting 'close' as a separate `OnConnClose` event. `peer.destroy()` closing the peer's other
  connections is PeerJS behaviour and is not modelled.
- `PeerService.PeerManager.OnConnError`: leaves the connection's open flag as it is; what PeerJS
  does to the flag on an error is not visible.
- The `e.preventDefault()` calls and `console.log`/`console.error`: no state of the model.
- `JsString.ToLower`: lower-cases only the letters of Basic Latin and Latin-1 Supplement
  (U+0041 to U+005A, U+00C0 to U+00DE except U+00D7), because the full Unicode case mapping
  (including mappings that change the length) is too large to write out; other characters are
  kept as they are.
- Strings are sequences of Unicode scalar values, not UTF-16 code units.
- A payload with fields beyond `text` and `timestamp` (the spread at App.tsx:45 would copy
  them) and a non-object datum: the datum is a `type` string and a payload of two strings.
- React rendering, theme (App.tsx:14-28), auto-scroll (App.tsx:69-71), the textarea height
  (components/MessageInput.tsx:13-18), and components/Header.tsx and
  components/MessageBubble.tsx, which only present state.
- `ChatApp.App.Join`: the effect's cleanup and re-run are modelled as their resulting calls
  (`destroy`, then `new PeerManager` and `init`) at the time the room id changes; React's
  scheduling of effects is not modelled.
- Two browsers are two managers in one run (`Scenarios`), their events interleaved one at a
  time; the transport that carries a datum from one to the other is a statement that passes
  the sent datum on unchanged.
