# Chat relay server, modelled in Dafny

This project models the relay core of the chat server in `server/index.js`. The core is the
socket.io server's four event handlers: `join`, `message`, `kick` and `disconnect`. They work
over two module-level stores:
- `channels` maps a channel name to its owner and its participant list;
- `allUsers` is the online list: a join appends its name when absent, and a disconnect filters out every copy of its name when that name is truthy.

The handlers also use socket.io's registry of live sockets: each socket's `username`, its
`channel` and the rooms it is in. Each handler runs to completion before the next one starts.
It updates the stores and emits events to a room, to every socket, or to one socket.

Layout:

- `wrappers.dfy`: `Option`.
- `roster.dfy`: the list operations the handlers use:
  - `includes` followed by `push` becomes `AppendIfAbsent`;
  - `filter((u) => u !== x)` becomes `Without`;
  - lemmas about duplicates, order and counts.
- `registry.dfy`: live sockets (`Conn`) in registration order, and the lookups over them:
  - the socket with a given id (`Position`);
  - the first socket carrying a name (`FirstNamed`, the `.find` of the kick handler);
  - the members of a room (`RoomMembers`);
  - removal (`Unregister`).
- `relay.dfy`: the whole server as a value `State`, made of the channels, the online list, the
  sockets and the outbox of every emission so far:
  - one step function per handler;
  - `Step`/`Run` over a stream of events;
  - the invariant `Inv`;
  - `Announced`: every channel got exactly one `owner` event, naming its owner.
- `relay_proofs.dfy`: `Inv` and `Announced` hold after any event stream, and no owner ever
  changes.
- `handlers.dfy`: what each handler does in one call, including the quirks of the code.
- `scenario.dfy`: the alice/bob walkthrough, replayed event by event to its exact final state.
- `server.dfy`: class `RelayServer`. Its fields are the stores, and it has one method per
  handler. Each method updates the fields in place, in the order the handler does. Each one is
  proved to leave exactly the state its step function describes. Each one keeps `Valid()`
  (`Inv` and `Announced`).

An emission records three things:
- its scope;
- the notice: event name and payload;
- the set of socket ids in that scope at the moment of the emit.

So "the roster is sent before the target leaves the room" can be stated and checked.

The model follows the code of `server/index.js` as written, including these behaviours a reader may not expect:
- **The online list is not "names held by a live socket".** It drifts from the live sockets in
  both directions:
  - `disconnect` removes every copy of the name, even while another socket still holds it.
    `SharedNameDroppedOnDisconnect` shows this.
  - A socket that re-joins under a new name leaves its old name on the list. So does a socket
    that joined as `""` and then disconnects, because the cleanup is skipped for a falsy name.
    The old name stays although no live socket holds it.
- **Disconnect emission order.** `disconnect` emits `participants` and "`<name> left`" before
  `allUsers`, not after.
- **Channel field after a kick.** Kicking does not clear the kicked socket's `channel` field.
- **Who sees the kick line.** The kicked socket does not receive "`<target> was kicked by <owner>`",
  because it has already left the room.

## Model

| member | source | states |
|---|---|---|
| Roster.AppendIfAbsent | server/index.js:32-39 | the name is in the result; the result holds exactly the old names plus it; the result is unchanged exactly when the name was already there, and otherwise gains it at the end; a list without duplicates stays without duplicates |
| Roster.Without | server/index.js:57 | the name is gone; every other name is kept and none is added; the list does not grow; a list without the name is returned unchanged |
| Roster.WithoutKeepsNoDups | server/index.js:57 | filtering a name out of a list without duplicates leaves no duplicates |
| Roster.WithoutIsSubsequence | server/index.js:57 | the filtered list keeps the remaining names in their original relative order |
| Roster.WithoutCounts | server/index.js:57 | the filtered list has no copy of the name and the same number of copies of every other name |
| Registry.NewConn | server/index.js:16 | a new socket has an id, no name, no channel, and is in the room named by its own id |
| Registry.Position | server/index.js:16-94 | the socket a handler runs for is the first with that id; there is none exactly when no live socket has that id |
| Registry.FirstNamed | server/index.js:60-61 | the index found carries the target name and no earlier socket does; nothing is found exactly when no live socket carries it |
| Registry.RoomMembers | server/index.js:42-46 | the recipients of a room emit are live sockets, and every live socket in the room is among them |
| Registry.RoomMembersExactly | server/index.js:42-46 | a socket id is among a room emit's recipients exactly when a live socket with that id is in the room |
| Registry.Unregister | server/index.js:75 | the socket torn down is removed and the others keep their order |
| Registry.UnregisterKeepsIds | server/index.js:75 | removing a socket keeps ids unique and drops exactly its id |
| Registry.UpdateKeepsIds | server/index.js:20-23 | overwriting a socket's name, channel and rooms keeps ids unique and the live ids the same |
| Registry.RegisterKeepsIds | server/index.js:16 | registering a fresh id keeps ids unique and adds exactly that id |
| Registry.AudienceOfAppend | server/index.js:16 | a newly registered socket joins the live ids, and joins a room's recipients exactly when it is in that room |
| Relay.EmitReaches | server/index.js:28-92 | an emission keeps its scope and payload; resolved when emitted, a room emit (`io.to(room).emit`, `io.in(room).emit`) reaches exactly the live sockets in that room, an emit to everyone (`io.emit`) exactly the live sockets, and a direct emit (`socket.emit`, `targetSocket.emit`) that one socket only |
| Relay.ConnectStep | server/index.js:16 | a connection changes no store and no output; the socket is appended after every existing one, which are unchanged, with no name, no channel and only its own room; exactly its id joins the live ids, and it is in the room of its own id |
| Relay.JoinStep | server/index.js:19-47 | a join adds its channel to the directory and removes none; that channel's owner is kept, or is the joiner for a new channel; the name is on the roster and online; no socket is added or dropped; the output only grows, by three events, or four when the channel is new (exact state in `HandlerProperties.JoinRecordsIdentity`, `JoinNewChannel` and `JoinExistingChannel`) |
| Relay.MessageStep | server/index.js:49-51 | a message changes no store or socket, and appends one user message with the claimed name, text and time, to live sockets only (exact emission in `HandlerProperties.MessageOnlyEmits`) |
| Relay.KickStep | server/index.js:53-73 | an unauthorised kick (the `ch && ch.owner === socket.username` guard of `MayKick` fails) is the identity; an authorised one leaves the target off the roster; channels, owners, other channels, the online list and the number of sockets are kept; the output only grows (exact effects in the `HandlerProperties.Kick*` lemmas) |
| Relay.DisconnectStep | server/index.js:75-94 | one socket fewer; every channel and owner kept; with a truthy name (`Truthy`, the test at line 76) the name is off the online list, and with a falsy one no store and no output changes; the output only grows (exact effects in `HandlerProperties.DisconnectNamed` and `DisconnectUnnamed`) |
| Relay.Step | server/index.js:16-94 | handling one event never removes a channel and never retracts an emission |
| Relay.Run | server/index.js:16-94 | handling a stream of events one after another never removes a channel and never retracts an emission |
| RelayProofs.ConnectPreservesInv | server/index.js:16 | a connection keeps rosters and the online list free of duplicates, ids unique and recorded channels existing |
| RelayProofs.JoinPreservesInv | server/index.js:19-47 | join keeps the invariant: its appends are append-if-absent, and the channel it records exists afterwards |
| RelayProofs.KickPreservesInv | server/index.js:53-73 | kick keeps the invariant: it only filters a roster and takes one socket out of one room |
| RelayProofs.DisconnectPreservesInv | server/index.js:75-94 | disconnect keeps the invariant: it only filters lists and removes the socket |
| RelayProofs.StepPreservesInv | server/index.js:16-94 | any single event keeps the invariant |
| RelayProofs.RunPreservesInv | server/index.js:16-94 | any sequence of events keeps the invariant |
| RelayProofs.InitSatisfiesInv | server/index.js:13-14 | the empty stores satisfy the invariant, and no channel has been announced |
| RelayProofs.StepKeepsOwners | server/index.js:26-29 | after any event every channel still exists, with the same owner |
| RelayProofs.RunKeepsOwners | server/index.js:27 | no sequence of events deletes a channel or reassigns its owner |
| RelayProofs.OwnerNoticesAppend | server/index.js:28 | the `owner` events sent to a room over two stretches of output are those of the first followed by those of the second |
| RelayProofs.NoOwnerNotices | server/index.js:28 | output without `owner` events announces no channel |
| RelayProofs.SingleOwnerNotice | server/index.js:28 | one `owner` event to a room announces that room's channel only, with that name |
| RelayProofs.AnnouncedWithoutOwnerEvents | server/index.js:28 | emitting no `owner` event while keeping every channel and its owner keeps each channel announced once |
| RelayProofs.AnnouncedAfterBatch | server/index.js:26-29 | one `owner` event for a newly created channel, naming the owner it was created with, keeps each channel announced exactly once |
| RelayProofs.JoinBatches | server/index.js:19-47 | join emits an `owner` event first exactly when it creates the channel, naming the joiner; then three other events; the new channel's owner is the joiner and every other owner is kept |
| RelayProofs.JoinKeepsAnnounced | server/index.js:26-29 | after a join every channel has been announced exactly once, naming its owner |
| RelayProofs.KickBatch | server/index.js:53-73 | kick emits no `owner` event and keeps every channel with its owner |
| RelayProofs.KickKeepsAnnounced | server/index.js:53-73 | kick keeps each channel announced exactly once |
| RelayProofs.DisconnectBatch | server/index.js:75-94 | disconnect emits no `owner` event and keeps every channel with its owner |
| RelayProofs.DisconnectKeepsAnnounced | server/index.js:75-94 | disconnect keeps each channel announced exactly once |
| RelayProofs.StepKeepsAnnounced | server/index.js:16-94 | any single event keeps each channel announced exactly once |
| RelayProofs.RunKeepsAnnounced | server/index.js:16-94 | any sequence of events keeps each channel announced exactly once |
| RelayProofs.OwnerAnnouncedOnce | server/index.js:26-29 | from the start, each room has had exactly one `owner` event if its channel exists, naming its owner, and none otherwise |
| HandlerProperties.JoinRecordsIdentity | server/index.js:19-47 | the joiner takes the name and channel and enters the room, staying in every room it was in; other sockets and other channels are unchanged; the roster and the online list become their append-if-absent of the name; every join ends with the new roster to the room's current members, the online list to every live socket and "`<name> joined`" to the room |
| HandlerProperties.JoinNewChannel | server/index.js:26-47 | joining a missing channel creates it owned by the joiner with the joiner alone on its roster, and emits exactly these four events: `owner` with the joiner's name to the room, which the joiner is in; the roster `[name]` to the room; the online list to every live socket; "`<name> joined`" to the room |
| HandlerProperties.JoinExistingChannel | server/index.js:26-47 | joining an existing channel keeps its owner, sets the roster and the online list to their append-if-absent of the name, and emits exactly the roster to the room, the online list to every live socket and "`<name> joined`" to the room, with no `owner` event |
| HandlerProperties.RejoinKeepsRosters | server/index.js:32-46 | re-joining under a name already present changes neither list, and still emits the roster to the room, the online list to everyone and "`<name> joined`" to the room |
| HandlerProperties.MessageOnlyEmits | server/index.js:49-51 | a message changes no store, and emits exactly one user message with the claimed name and the given time to the room's current members |
| HandlerProperties.KickUnauthorizedIsNoOp | server/index.js:54-56 | a kick on a missing channel, or from a socket not named as the owner, changes nothing and emits nothing |
| HandlerProperties.KickByOwnerRoster | server/index.js:57-71 | an owner's kick removes every copy of the target, keeps the other names in order and counts, and keeps the owner and other channels; the new roster goes first, to the room before anyone leaves it, and "`<target> was kicked by <owner>`" goes last |
| HandlerProperties.KickByOwnerFound | server/index.js:60-66 | the first socket with the target name leaves only that room and keeps its `channel` field; it alone receives exactly one `kicked` event naming the channel, and it does not receive the kick line |
| HandlerProperties.KickByOwnerNotFound | server/index.js:60-63 | with no socket carrying the target name, no socket changes and no `kicked` event is sent |
| HandlerProperties.DisconnectNamed | server/index.js:75-93 | a named socket's disconnect removes exactly that socket from the registry, keeping every other socket and their order, and removes every copy of its name from the online list; if its channel is set and exists, it filters that roster and emits the roster and "`<name> left`" to the room; the online list goes to everyone last; the departed socket receives none of it |
| HandlerProperties.DisconnectUnnamed | server/index.js:76 | a socket without a name, or with the empty name, is only unregistered: no store changes and nothing is emitted |
| HandlerProperties.SharedNameDroppedOnDisconnect | server/index.js:78 | when two sockets share a name and one disconnects, the name leaves the online list although a live socket still holds it |
| Scenario.RunSix | server/index.js:16-94 | a stream of six events is the six handlers run one after another |
| Scenario.WalkthroughOutcome | server/index.js:19-94 | A and B connect; alice creates "general"; bob joins; alice kicks bob; B disconnects; this leaves exactly the expected stores and the expected thirteen emissions with their recipients |
| Server.RelayServer.constructor | server/index.js:13-14 | the server starts with no channels, no online names, no sockets and no output, and satisfies `Valid` |
| Server.RelayServer.Connect | server/index.js:16 | registers the socket as the state machine's connection step does, and keeps `Valid` |
| Server.RelayServer.Join | server/index.js:19-47 | updates socket, channel directory and online list in place and emits in the handler's order, leaving exactly the join step's state, and keeps `Valid` |
| Server.RelayServer.SendMessage | server/index.js:49-51 | emits the message, leaving exactly the message step's state, and keeps `Valid` |
| Server.RelayServer.Kick | server/index.js:53-73 | filters the roster, emits it, has the first matching socket leave and be told, and emits the kick line, leaving exactly the kick step's state; keeps `Valid` |
| Server.RelayServer.Disconnect | server/index.js:75-94 | drops the socket, then filters the online list and roster and emits as the handler does, leaving exactly the disconnect step's state; keeps `Valid` |

## Left out

- Express, HTTP and socket.io setup, CORS and `server.listen`: process bootstrapping outside the relay logic.
- `console.log` calls: they only log and affect no state.
- `Date.now()`: the clock is not modelled. The timestamp is a parameter of `SendMessage`/`MessageStep`.
- Network transport and delivery: an emission is a record appended to the outbox, with its recipients fixed at emit time. Whether they receive it is not modelled.
- Socket.io's own disconnect cleanup: before the handler runs, socket.io takes the socket out of all its rooms and out of `io.sockets.sockets`. This is library behaviour, not code in the file. The model assumes it happens first: `DisconnectStep` removes the socket, then runs the handler on its last-known name and channel.
- Socket.io's implicit room per socket: a new socket is assumed to be in the room named by its own id. Ids are strings chosen by the caller of `Connect`, and must be fresh.
- Malformed payloads: the model assumes `channel`, `username` and `target` are always strings, because the code does not validate them. An absent field is `undefined` in JavaScript, so a nameless socket could then pass the owner test against an undefined owner. That case is not modelled.
- JavaScript object-key quirks: names such as `__proto__` or `toString`, which a plain-object lookup would mistake for existing channels, are not modelled. `channels` is modelled as a map.
- Server.RelayServer.Connect: accepts any state, with no `Valid()` precondition, and promises `Valid()` afterwards when it held before (`old(Valid()) ==> Valid()`). That is at least as strong as requiring and ensuring `Valid()`, but it does not promise `Valid()` after a call from a state where it failed. The invariant over whole event streams is `RelayProofs.RunPreservesInv` with `RelayProofs.RunKeepsAnnounced`.
- Server.RelayServer.Join: accepts any state, with no `Valid()` precondition, and promises `Valid()` afterwards when it held before (`old(Valid()) ==> Valid()`). That is at least as strong as requiring and ensuring `Valid()`, but it does not promise `Valid()` after a call from a state where it failed. The invariant over whole event streams is `RelayProofs.RunPreservesInv` with `RelayProofs.RunKeepsAnnounced`.
- Server.RelayServer.SendMessage: accepts any state, with no `Valid()` precondition, and promises `Valid()` afterwards when it held before (`old(Valid()) ==> Valid()`). That is at least as strong as requiring and ensuring `Valid()`, but it does not promise `Valid()` after a call from a state where it failed. The invariant over whole event streams is `RelayProofs.RunPreservesInv` with `RelayProofs.RunKeepsAnnounced`.
- Server.RelayServer.Kick: accepts any state, with no `Valid()` precondition, and promises `Valid()` afterwards when it held before (`old(Valid()) ==> Valid()`). That is at least as strong as requiring and ensuring `Valid()`, but it does not promise `Valid()` after a call from a state where it failed. The invariant over whole event streams is `RelayProofs.RunPreservesInv` with `RelayProofs.RunKeepsAnnounced`.
- Server.RelayServer.Disconnect: accepts any state, with no `Valid()` precondition, and promises `Valid()` afterwards when it held before (`old(Valid()) ==> Valid()`). That is at least as strong as requiring and ensuring `Valid()`, but it does not promise `Valid()` after a call from a state where it failed. The invariant over whole event streams is `RelayProofs.RunPreservesInv` with `RelayProofs.RunKeepsAnnounced`.
- The message handler's sending socket: it plays no part in what the code emits, so `SendMessage` does not take it.
- Events from sockets that are not live: `Step` treats them as no-ops, because socket.io delivers events only from connected sockets.
- The client (`client/src/Chat.jsx`): its search, its empty-text guard and its kick-button rule are rendering-side. None of them belongs to the server's behaviour.
