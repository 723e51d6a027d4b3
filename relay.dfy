/**
 The relay of server/index.js as a state machine over values: the channel
 directory, the global online list, the registry of live connections and the
 sequence of notifications emitted so far. Each `socket.on(...)` handler is a
 step function; `Step` and `Run` replay a whole event stream, one handler at a
 time, as the single-threaded event loop does.
 */
module Relay {
  import opened Wrappers
  import opened Roster
  import opened Registry

  /** `channels[name]`: the user whose join created it, and its roster. */
  datatype Channel = Channel(owner: string, participants: seq<string>)

  /** Where an emission is addressed: `io.to(room)`, `io`, or one socket. */
  datatype Scope = Room(name: string) | Everyone | Direct(id: ConnId)

  /** The payload of a `message` event: a user's text or a system line. */
  datatype Msg = User(username: string, text: string, ts: int) | System(text: string)

  /** The server-to-client events, each with its payload. */
  datatype Notice =
    | Owner(username: string)
    | Participants(names: seq<string>)
    | AllUsers(names: seq<string>)
    | Message(msg: Msg)
    | Kicked(channel: string)

  /** One `emit`, with the connections it reached when it was made. */
  datatype Emission = Emission(scope: Scope, to: set<ConnId>, notice: Notice)

  datatype State = State(
    channels: map<string, Channel>,
    allUsers: seq<string>,
    conns: seq<Conn>,
    outbox: seq<Emission>)

  /** The connections a scope reaches right now. */
  function Audience(conns: seq<Conn>, scope: Scope): set<ConnId> {
    match scope
    case Room(r) => RoomMembers(conns, r)
    case Everyone => Ids(conns)
    case Direct(id) => {id}
  }

  function Emit(conns: seq<Conn>, scope: Scope, notice: Notice): Emission {
    Emission(scope, Audience(conns, scope), notice)
  }

  /**
   Who an emission reaches, resolved when it is emitted: a room emit reaches
   the live sockets in that room, an emit to everyone every live socket, and
   a direct emit that one socket only.
   */
  lemma EmitReaches(conns: seq<Conn>, scope: Scope, notice: Notice, x: ConnId)
    ensures Emit(conns, scope, notice).scope == scope && Emit(conns, scope, notice).notice == notice
    ensures scope.Room? ==>
      (x in Emit(conns, scope, notice).to <==>
        exists i :: 0 <= i < |conns| && conns[i].id == x && scope.name in conns[i].rooms)
    ensures scope.Everyone? ==>
      (x in Emit(conns, scope, notice).to <==> exists i :: 0 <= i < |conns| && conns[i].id == x)
    ensures scope.Direct? ==> (x in Emit(conns, scope, notice).to <==> x == scope.id)
  {
    if scope.Room? {
      RoomMembersExactly(conns, scope.name, x);
    }
  }

  /** The process at start-up: `channels = {}`, `allUsers = []`, nobody connected. */
  function Init(): State {
    State(map[], [], [], [])
  }

  /** JavaScript truthiness of an optional string field. */
  predicate Truthy(field: Option<string>) {
    field.Some? && field.value != ""
  }

  /** What every handler keeps. */
  predicate Inv(s: State) {
    && NoDups(s.allUsers)
    && (forall c :: c in s.channels ==> NoDups(s.channels[c].participants))
    && UniqueIds(s.conns)
    && (forall i :: 0 <= i < |s.conns| && s.conns[i].channel.Some? ==> s.conns[i].channel.value in s.channels)
  }

  /** The usernames carried by the `owner` events sent to one channel's room. */
  function OwnerNotices(outbox: seq<Emission>, channel: string): seq<string> {
    if outbox == [] then []
    else
      var e := outbox[|outbox| - 1];
      OwnerNotices(outbox[..|outbox| - 1], channel)
        + (if e.scope == Room(channel) && e.notice.Owner? then [e.notice.username] else [])
  }

  /** Each existing channel has been announced exactly once, naming its owner; no other channel has. */
  ghost predicate Announced(s: State) {
    forall c :: OwnerNotices(s.outbox, c) == (if c in s.channels then [s.channels[c].owner] else [])
  }

  /** `io.on('connection')`: the socket is registered, in its own room only. */
  function ConnectStep(s: State, id: ConnId): (r: State)
    requires id !in Ids(s.conns)
    ensures r.channels == s.channels && r.allUsers == s.allUsers && r.outbox == s.outbox
    ensures |r.conns| == |s.conns| + 1 && r.conns[..|s.conns|] == s.conns
    ensures r.conns[|s.conns|] == Conn(id, None, None, {id})
    ensures Ids(r.conns) == Ids(s.conns) + {id}
    ensures RoomMembers(r.conns, id) == RoomMembers(s.conns, id) + {id}
  {
    AudienceOfAppend(s.conns, NewConn(id), id);
    s.(conns := s.conns + [NewConn(id)])
  }

  /** `socket.on('join', { channel, username })`. */
  function JoinStep(s: State, id: ConnId, channel: string, username: string): (r: State)
    requires id in Ids(s.conns)
    ensures r.channels.Keys == s.channels.Keys + {channel}
    ensures r.channels[channel].owner == if channel in s.channels then s.channels[channel].owner else username
    ensures username in r.channels[channel].participants && username in r.allUsers
    ensures |r.conns| == |s.conns|
    ensures s.outbox <= r.outbox && |r.outbox| == |s.outbox| + (if channel in s.channels then 3 else 4)
  {
    var k := Position(s.conns, id).value;
    var me := s.conns[k];
    var conns := s.conns[k := me.(username := Some(username), channel := Some(channel), rooms := me.rooms + {channel})];
    var created := channel !in s.channels;
    var ch := if created then Channel(username, []) else s.channels[channel];
    var roster := AppendIfAbsent(ch.participants, username);
    var users := AppendIfAbsent(s.allUsers, username);
    var announce := if created then [Emit(conns, Room(channel), Owner(username))] else [];
    State(
      s.channels[channel := ch.(participants := roster)],
      users,
      conns,
      s.outbox + announce + [
        Emit(conns, Room(channel), Participants(roster)),
        Emit(conns, Everyone, AllUsers(users)),
        Emit(conns, Room(channel), Message(System(username + " joined")))])
  }

  /** `socket.on('message', { channel, text, username })`, stamped with the clock reading `ts`. */
  function MessageStep(s: State, channel: string, text: string, username: string, ts: int): (r: State)
    ensures r.channels == s.channels && r.allUsers == s.allUsers && r.conns == s.conns
    ensures s.outbox <= r.outbox && |r.outbox| == |s.outbox| + 1
    ensures r.outbox[|s.outbox|].notice == Message(User(username, text, ts))
    ensures r.outbox[|s.outbox|].to <= Ids(s.conns)
  {
    s.(outbox := s.outbox + [Emit(s.conns, Room(channel), Message(User(username, text, ts)))])
  }

  /** The `username` recorded on the live socket `id`. */
  function Caller(s: State, id: ConnId): Option<string>
    requires id in Ids(s.conns)
  {
    s.conns[Position(s.conns, id).value].username
  }

  /** `ch && ch.owner === socket.username`: the channel exists and the caller's name is its owner. */
  predicate MayKick(s: State, id: ConnId, channel: string)
    requires id in Ids(s.conns)
  {
    channel in s.channels && Some(s.channels[channel].owner) == Caller(s, id)
  }

  /** `socket.on('kick', { channel, target })`, issued by the socket `id`. */
  function KickStep(s: State, id: ConnId, channel: string, target: string): (r: State)
    requires id in Ids(s.conns)
    ensures !MayKick(s, id, channel) ==> r == s
    ensures MayKick(s, id, channel) ==> channel in r.channels && target !in r.channels[channel].participants
    ensures r.channels.Keys == s.channels.Keys
    ensures forall c :: c in s.channels ==> r.channels[c].owner == s.channels[c].owner
    ensures forall c :: c in s.channels && c != channel ==> r.channels[c] == s.channels[c]
    ensures r.allUsers == s.allUsers && |r.conns| == |s.conns|
    ensures s.outbox <= r.outbox
  {
    if MayKick(s, id, channel) then
      var owner := s.channels[channel].owner;
      var roster := Without(s.channels[channel].participants, target);
      var update := Emit(s.conns, Room(channel), Participants(roster));
      var found := FirstNamed(s.conns, target);
      var conns :=
        if found.Some? then
          s.conns[found.value := s.conns[found.value].(rooms := s.conns[found.value].rooms - {channel})]
        else s.conns;
      var direct := if found.Some? then [Emit(conns, Direct(s.conns[found.value].id), Kicked(channel))] else [];
      State(
        s.channels[channel := Channel(owner, roster)],
        s.allUsers,
        conns,
        s.outbox + [update] + direct + [Emit(conns, Room(channel), Message(System(target + " was kicked by " + owner)))])
    else
      s
  }

  /**
   `socket.on('disconnect')`. socket.io has already taken the socket out of
   its rooms and out of the registry when the handler runs; the handler then
   works from the socket's last `username` and `channel`.
   */
  function DisconnectStep(s: State, id: ConnId): (r: State)
    requires id in Ids(s.conns)
    ensures |r.conns| == |s.conns| - 1
    ensures r.channels.Keys == s.channels.Keys
    ensures forall c :: c in s.channels ==> r.channels[c].owner == s.channels[c].owner
    ensures Truthy(Caller(s, id)) ==> Caller(s, id).value !in r.allUsers
    ensures !Truthy(Caller(s, id)) ==> r.channels == s.channels && r.allUsers == s.allUsers && r.outbox == s.outbox
    ensures s.outbox <= r.outbox
  {
    var k := Position(s.conns, id).value;
    var me := s.conns[k];
    var conns := Unregister(s.conns, k);
    if Truthy(me.username) then
      var name := me.username.value;
      var users := Without(s.allUsers, name);
      if Truthy(me.channel) && me.channel.value in s.channels then
        var channel := me.channel.value;
        var roster := Without(s.channels[channel].participants, name);
        State(
          s.channels[channel := s.channels[channel].(participants := roster)],
          users,
          conns,
          s.outbox + [
            Emit(conns, Room(channel), Participants(roster)),
            Emit(conns, Room(channel), Message(System(name + " left"))),
            Emit(conns, Everyone, AllUsers(users))])
      else
        State(s.channels, users, conns, s.outbox + [Emit(conns, Everyone, AllUsers(users))])
    else
      s.(conns := conns)
  }

  /** One event delivered to the server. */
  datatype Command =
    | OnConnection(id: ConnId)
    | OnJoin(id: ConnId, channel: string, username: string)
    | OnMessage(channel: string, text: string, username: string, ts: int)
    | OnKick(id: ConnId, channel: string, target: string)
    | OnDisconnect(id: ConnId)

  /**
   One handler run to completion. The transport never delivers a connection
   for a live id, nor an event from a socket that is gone; such commands
   change nothing.
   */
  function Step(s: State, cmd: Command): (r: State)
    ensures s.channels.Keys <= r.channels.Keys
    ensures s.outbox <= r.outbox
  {
    match cmd
    case OnConnection(id) => if id in Ids(s.conns) then s else ConnectStep(s, id)
    case OnJoin(id, channel, username) => if id in Ids(s.conns) then JoinStep(s, id, channel, username) else s
    case OnMessage(channel, text, username, ts) => MessageStep(s, channel, text, username, ts)
    case OnKick(id, channel, target) => if id in Ids(s.conns) then KickStep(s, id, channel, target) else s
    case OnDisconnect(id) => if id in Ids(s.conns) then DisconnectStep(s, id) else s
  }

  /** The event stream handled one event after another. */
  function Run(s: State, cmds: seq<Command>): (r: State)
    ensures s.channels.Keys <= r.channels.Keys
    ensures s.outbox <= r.outbox
    decreases |cmds|
  {
    if cmds == [] then s else Run(Step(s, cmds[0]), cmds[1..])
  }
}
