/**
 The server process of server/index.js: the module-level stores `channels` and
 `allUsers`, socket.io's registry of sockets, and everything emitted so far,
 held by one object whose handler methods run one at a time and update the
 stores in place, step by step, as the source does.
 */
module Server {
  import opened Wrappers
  import opened Roster
  import opened Registry
  import opened Relay
  import RelayProofs

  class RelayServer {
    var channels: map<string, Channel>
    var allUsers: seq<string>
    var conns: seq<Conn>
    var outbox: seq<Emission>

    /** The stores as one value, for the state machine of module Relay. */
    function Snapshot(): State
      reads this
    {
      State(channels, allUsers, conns, outbox)
    }

    /** No duplicate names or ids, recorded channels exist, and each channel was announced once. */
    ghost predicate Valid()
      reads this
    {
      Inv(Snapshot()) && Announced(Snapshot())
    }

    /** `const channels = {}; let allUsers = [];` before any socket connects. */
    constructor ()
      ensures Valid() && Snapshot() == Init()
    {
      channels, allUsers, conns, outbox := map[], [], [], [];
      new;
      RelayProofs.InitSatisfiesInv();
    }

    /** `io.on('connection')`: socket.io registers the socket in its own room. */
    method Connect(id: ConnId)
      requires id !in Ids(conns)
      modifies this
      ensures Snapshot() == ConnectStep(old(Snapshot()), id)
      ensures old(Valid()) ==> Valid()
    {
      ghost var before := Snapshot();
      conns := conns + [NewConn(id)];
      if Inv(before) && Announced(before) {
        RelayProofs.ConnectPreservesInv(before, id);
      }
      assert Snapshot() == ConnectStep(before, id);
    }

    /** `socket.on('join', { channel, username })` on the socket `id`. */
    method Join(id: ConnId, channel: string, username: string)
      requires id in Ids(conns)
      modifies this
      ensures Snapshot() == JoinStep(old(Snapshot()), id, channel, username)
      ensures old(Valid()) ==> Valid()
    {
      ghost var before := Snapshot();
      RelayProofs.JoinStepParts(before, id, channel, username);
      var k := Position(conns, id).value;
      conns := conns[k := conns[k].(username := Some(username), channel := Some(channel))];
      conns := conns[k := conns[k].(rooms := conns[k].rooms + {channel})];
      assert conns == before.conns[k := before.conns[k].(username := Some(username), channel := Some(channel), rooms := before.conns[k].rooms + {channel})];
      ghost var ch := if channel in channels then channels[channel] else Channel(username, []);
      ghost var announce: seq<Emission> := [];
      if channel !in channels {
        channels := channels[channel := Channel(username, [])];
        outbox := outbox + [Emit(conns, Room(channel), Owner(username))];
        announce := [Emit(conns, Room(channel), Owner(username))];
      }
      assert channels[channel] == ch;
      assert outbox == before.outbox + announce;
      channels := channels[channel := channels[channel].(participants := AppendIfAbsent(channels[channel].participants, username))];
      allUsers := AppendIfAbsent(allUsers, username);
      outbox := outbox + [Emit(conns, Room(channel), Participants(channels[channel].participants))];
      outbox := outbox + [Emit(conns, Everyone, AllUsers(allUsers))];
      outbox := outbox + [Emit(conns, Room(channel), Message(System(username + " joined")))];
      if Inv(before) && Announced(before) {
        RelayProofs.JoinPreservesInv(before, id, channel, username);
        RelayProofs.JoinKeepsAnnounced(before, id, channel, username);
      }
    }

    /** `socket.on('message', { channel, text, username })`, with `Date.now()` given as `ts`. */
    method SendMessage(channel: string, text: string, username: string, ts: int)
      modifies this
      ensures Snapshot() == MessageStep(old(Snapshot()), channel, text, username, ts)
      ensures old(Valid()) ==> Valid()
    {
      ghost var before := Snapshot();
      outbox := outbox + [Emit(conns, Room(channel), Message(User(username, text, ts)))];
      if Inv(before) && Announced(before) {
        RelayProofs.StepPreservesInv(before, OnMessage(channel, text, username, ts));
        RelayProofs.StepKeepsAnnounced(before, OnMessage(channel, text, username, ts));
      }
    }

    /** `socket.on('kick', { channel, target })` on the socket `id`. */
    method Kick(id: ConnId, channel: string, target: string)
      requires id in Ids(conns)
      modifies this
      ensures Snapshot() == KickStep(old(Snapshot()), id, channel, target)
      ensures old(Valid()) ==> Valid()
    {
      ghost var before := Snapshot();
      ghost var after := KickStep(before, id, channel, target);
      var k := Position(conns, id).value;
      if channel in channels && Some(channels[channel].owner) == conns[k].username {
        var caller := conns[k].username.value;
        channels := channels[channel := channels[channel].(participants := Without(channels[channel].participants, target))];
        assert channels == after.channels;
        outbox := outbox + [Emit(conns, Room(channel), Participants(channels[channel].participants))];
        ghost var update := Emit(conns, Room(channel), Participants(channels[channel].participants));
        ghost var direct: seq<Emission> := [];
        var found := FirstNamed(conns, target);
        if found.Some? {
          var t := found.value;
          conns := conns[t := conns[t].(rooms := conns[t].rooms - {channel})];
          outbox := outbox + [Emit(conns, Direct(conns[t].id), Kicked(channel))];
          direct := [Emit(conns, Direct(conns[t].id), Kicked(channel))];
        }
        assert conns == after.conns;
        assert outbox == before.outbox + [update] + direct;
        outbox := outbox + [Emit(conns, Room(channel), Message(System(target + " was kicked by " + caller)))];
      }
      assert Snapshot() == after;
      if Inv(before) && Announced(before) {
        RelayProofs.KickPreservesInv(before, id, channel, target);
        RelayProofs.KickKeepsAnnounced(before, id, channel, target);
      }
    }

    /**
     `socket.on('disconnect')` for the socket `id`. socket.io has already
     dropped the socket from its rooms and from the registry; the handler
     works from the socket's last `username` and `channel`.
     */
    method Disconnect(id: ConnId)
      requires id in Ids(conns)
      modifies this
      ensures Snapshot() == DisconnectStep(old(Snapshot()), id)
      ensures old(Valid()) ==> Valid()
    {
      ghost var before := Snapshot();
      var k := Position(conns, id).value;
      var me := conns[k];
      conns := Unregister(conns, k);
      if Truthy(me.username) {
        var name := me.username.value;
        allUsers := Without(allUsers, name);
        if Truthy(me.channel) && me.channel.value in channels {
          var channel := me.channel.value;
          channels := channels[channel := channels[channel].(participants := Without(channels[channel].participants, name))];
          outbox := outbox + [Emit(conns, Room(channel), Participants(channels[channel].participants))];
          outbox := outbox + [Emit(conns, Room(channel), Message(System(name + " left")))];
        }
        outbox := outbox + [Emit(conns, Everyone, AllUsers(allUsers))];
      }
      assert Snapshot() == DisconnectStep(before, id);
      if Inv(before) && Announced(before) {
        RelayProofs.DisconnectPreservesInv(before, id);
        RelayProofs.DisconnectKeepsAnnounced(before, id);
      }
    }
  }
}
