/**
 What each handler of the relay does, one call at a time: the state it leaves
 and the notifications it emits, in order.
 */
module HandlerProperties {
  import opened Wrappers
  import opened Roster
  import opened Registry
  import opened Relay
  import RelayProofs

  // ---------------------------------------------------------------------------
  // join

  /**
   The joining socket takes the name and channel and enters the room, keeping
   every room it was in; other sockets and other channels are unchanged; the
   name is appended to the roster and to the online list when absent; and every
   join ends with the roster to the room, the online list to everyone and
   "<name> joined" to the room.
   */
  lemma JoinRecordsIdentity(s: State, id: ConnId, channel: string, username: string)
    requires id in Ids(s.conns)
    ensures var r := JoinStep(s, id, channel, username);
      var k := Position(s.conns, id).value;
      var roster := if channel in s.channels then s.channels[channel].participants else [];
      && |r.conns| == |s.conns|
      && r.conns[k] == Conn(id, Some(username), Some(channel), s.conns[k].rooms + {channel})
      && (forall i :: 0 <= i < |s.conns| && i != k ==> r.conns[i] == s.conns[i])
      && r.channels[channel].participants == AppendIfAbsent(roster, username)
      && r.allUsers == AppendIfAbsent(s.allUsers, username)
      && (forall c :: c in s.channels && c != channel ==> c in r.channels && r.channels[c] == s.channels[c])
      && |r.outbox| >= 3
      && r.outbox[|r.outbox| - 3..] == [
           Emission(Room(channel), RoomMembers(r.conns, channel), Participants(r.channels[channel].participants)),
           Emission(Everyone, Ids(r.conns), AllUsers(r.allUsers)),
           Emission(Room(channel), RoomMembers(r.conns, channel), Message(System(username + " joined")))]
  {
    var r := JoinStep(s, id, channel, username);
    var tail := r.outbox[|r.outbox| - 3..];
    assert tail[0] == r.outbox[|r.outbox| - 3];
  }

  /**
   Four appends in a row are one append of four: a fact about sequence
   concatenation that spares the solver an extensionality step.
   */
  lemma AppendFour(a: seq<Emission>, e0: Emission, e1: Emission, e2: Emission, e3: Emission)
    ensures a + [e0] + [e1] + [e2] + [e3] == a + [e0, e1, e2, e3]
  {
  }

  /**
   Joining a channel that does not exist creates it, owned by the joiner,
   with the joiner as its only participant, and emits first one `owner`
   event, to the room, which the joiner receives, then the three events
   of every join.
   */
  lemma JoinNewChannel(s: State, id: ConnId, channel: string, username: string)
    requires id in Ids(s.conns)
    requires channel !in s.channels
    ensures var r := JoinStep(s, id, channel, username);
      && r.channels == s.channels[channel := Channel(username, [username])]
      && r.outbox == s.outbox + [
           Emission(Room(channel), RoomMembers(r.conns, channel), Owner(username)),
           Emission(Room(channel), RoomMembers(r.conns, channel), Participants([username])),
           Emission(Everyone, Ids(r.conns), AllUsers(r.allUsers)),
           Emission(Room(channel), RoomMembers(r.conns, channel), Message(System(username + " joined")))]
      && id in RoomMembers(r.conns, channel)
  {
    RelayProofs.JoinStepParts(s, id, channel, username);
    var r := JoinStep(s, id, channel, username);
    var k := Position(s.conns, id).value;
    var me := s.conns[k];
    var conns := s.conns[k := me.(username := Some(username), channel := Some(channel), rooms := me.rooms + {channel})];
    assert AppendIfAbsent([], username) == [username];
    assert r.conns == conns;
    assert r.channels == s.channels[channel := Channel(username, [])][channel := Channel(username, [username])];
    var e0, e1, e2, e3 :=
      Emit(conns, Room(channel), Owner(username)),
      Emit(conns, Room(channel), Participants([username])),
      Emit(conns, Everyone, AllUsers(r.allUsers)),
      Emit(conns, Room(channel), Message(System(username + " joined")));
    assert r.outbox == s.outbox + [e0] + [e1] + [e2] + [e3];
    AppendFour(s.outbox, e0, e1, e2, e3);
    assert conns[k].id == id && channel in conns[k].rooms;
  }

  /**
   Joining an existing channel keeps its owner, appends the name to the
   roster when absent, and emits no `owner` event: only the roster to the
   room, the online list to everyone and "<name> joined" to the room.
   */
  lemma JoinExistingChannel(s: State, id: ConnId, channel: string, username: string)
    requires id in Ids(s.conns)
    requires channel in s.channels
    ensures var r := JoinStep(s, id, channel, username);
      var roster := AppendIfAbsent(s.channels[channel].participants, username);
      && r.channels == s.channels[channel := Channel(s.channels[channel].owner, roster)]
      && r.allUsers == AppendIfAbsent(s.allUsers, username)
      && r.outbox == s.outbox + [
           Emission(Room(channel), RoomMembers(r.conns, channel), Participants(roster)),
           Emission(Everyone, Ids(r.conns), AllUsers(r.allUsers)),
           Emission(Room(channel), RoomMembers(r.conns, channel), Message(System(username + " joined")))]
  {
  }

  /**
   Re-joining under a name already on the roster and online changes neither
   list, and still emits the roster to the room, the online list to everyone
   and "<name> joined" to the room.
   */
  lemma RejoinKeepsRosters(s: State, id: ConnId, channel: string, username: string)
    requires id in Ids(s.conns)
    requires channel in s.channels
    requires username in s.channels[channel].participants && username in s.allUsers
    ensures var r := JoinStep(s, id, channel, username);
      && r.channels == s.channels
      && r.allUsers == s.allUsers
      && r.outbox == s.outbox + [
           Emit(r.conns, Room(channel), Participants(s.channels[channel].participants)),
           Emit(r.conns, Everyone, AllUsers(s.allUsers)),
           Emit(r.conns, Room(channel), Message(System(username + " joined")))]
  {
    var r := JoinStep(s, id, channel, username);
    assert r.channels[channel] == s.channels[channel];
  }

  // ---------------------------------------------------------------------------
  // message

  /** A message changes no state and reaches the room once, whoever sent it under whatever name. */
  lemma MessageOnlyEmits(s: State, channel: string, text: string, username: string, ts: int)
    ensures var r := MessageStep(s, channel, text, username, ts);
      && r.channels == s.channels && r.allUsers == s.allUsers && r.conns == s.conns
      && r.outbox == s.outbox + [Emission(Room(channel), RoomMembers(s.conns, channel), Message(User(username, text, ts)))]
  {
  }

  // ---------------------------------------------------------------------------
  // kick

  /** A kick on a missing channel, or from anyone but its owner, changes nothing and emits nothing. */
  lemma KickUnauthorizedIsNoOp(s: State, id: ConnId, channel: string, target: string)
    requires id in Ids(s.conns)
    requires !MayKick(s, id, channel)
    ensures KickStep(s, id, channel, target) == s
  {
  }

  /**
   An owner's kick takes every copy of the target off the roster, keeping the
   others in order, and leaves the owner, the other channels and the online
   list as they were; the new roster goes first to the room as it was before
   anyone left it, and the kick line goes last.
   */
  lemma KickByOwnerRoster(s: State, id: ConnId, channel: string, target: string)
    requires id in Ids(s.conns)
    requires MayKick(s, id, channel)
    ensures var r := KickStep(s, id, channel, target);
      var before := s.channels[channel].participants;
      var after := r.channels[channel].participants;
      && r.channels.Keys == s.channels.Keys
      && r.channels[channel].owner == s.channels[channel].owner
      && (forall c :: c in s.channels && c != channel ==> r.channels[c] == s.channels[c])
      && target !in after
      && Subsequence(after, before)
      && multiset(after) == multiset(before)[target := 0]
      && r.allUsers == s.allUsers
      && |r.outbox| >= |s.outbox| + 2
      && r.outbox[..|s.outbox|] == s.outbox
      && r.outbox[|s.outbox|] == Emission(Room(channel), RoomMembers(s.conns, channel), Participants(after))
      && r.outbox[|r.outbox| - 1] == Emission(Room(channel), RoomMembers(r.conns, channel),
           Message(System(target + " was kicked by " + s.channels[channel].owner)))
  {
    WithoutIsSubsequence(s.channels[channel].participants, target);
    WithoutCounts(s.channels[channel].participants, target);
  }

  /**
   When a live socket carries the target's name, the first such socket leaves
   the room (and only the room: its `channel` field is kept), it alone gets
   one `kicked` event naming the channel, and the kick line no longer reaches it.
   */
  lemma KickByOwnerFound(s: State, id: ConnId, channel: string, target: string)
    requires UniqueIds(s.conns)
    requires id in Ids(s.conns)
    requires MayKick(s, id, channel)
    requires FirstNamed(s.conns, target).Some?
    ensures var r := KickStep(s, id, channel, target);
      var t := FirstNamed(s.conns, target).value;
      var victim := s.conns[t].id;
      && |r.conns| == |s.conns|
      && r.conns[t] == s.conns[t].(rooms := s.conns[t].rooms - {channel})
      && r.conns[t].channel == s.conns[t].channel
      && (forall i :: 0 <= i < |s.conns| && i != t ==> r.conns[i] == s.conns[i])
      && |r.outbox| == |s.outbox| + 3
      && r.outbox[|s.outbox| + 1] == Emission(Direct(victim), {victim}, Kicked(channel))
      && (forall i :: |s.outbox| <= i < |r.outbox| && r.outbox[i].notice.Kicked? ==> i == |s.outbox| + 1)
      && victim !in r.outbox[|s.outbox| + 2].to
  {
    var r := KickStep(s, id, channel, target);
    var t := FirstNamed(s.conns, target).value;
    var victim := s.conns[t].id;
    forall i | 0 <= i < |r.conns| && channel in r.conns[i].rooms ensures r.conns[i].id != victim {
      if i != t { assert s.conns[i].id != s.conns[t].id; }
    }
  }

  /** When no live socket carries the target's name, no socket changes and no `kicked` event is sent. */
  lemma KickByOwnerNotFound(s: State, id: ConnId, channel: string, target: string)
    requires id in Ids(s.conns)
    requires MayKick(s, id, channel)
    requires forall i :: 0 <= i < |s.conns| ==> s.conns[i].username != Some(target)
    ensures var r := KickStep(s, id, channel, target);
      && r.conns == s.conns
      && |r.outbox| == |s.outbox| + 2
      && (forall i :: |s.outbox| <= i < |r.outbox| ==> !r.outbox[i].notice.Kicked?)
  {
  }

  // ---------------------------------------------------------------------------
  // disconnect

  /**
   A socket whose name is truthy takes every copy of that name off the online
   list, and off the roster of its recorded channel when that is truthy and
   exists, emitting roster and "<name> left" there; the online list goes to
   everyone last. The socket itself is gone and reached by none of these.
   */
  lemma DisconnectNamed(s: State, id: ConnId)
    requires UniqueIds(s.conns)
    requires id in Ids(s.conns)
    requires Truthy(Caller(s, id))
    ensures var r := DisconnectStep(s, id);
      var me := s.conns[Position(s.conns, id).value];
      var name := me.username.value;
      && r.conns == Unregister(s.conns, Position(s.conns, id).value)
      && Ids(r.conns) == Ids(s.conns) - {id}
      && r.allUsers == Without(s.allUsers, name)
      && name !in r.allUsers
      && (forall i :: |s.outbox| <= i < |r.outbox| ==> id !in r.outbox[i].to)
      && r.outbox[..|s.outbox|] == s.outbox
      && r.outbox[|r.outbox| - 1] == Emission(Everyone, Ids(r.conns), AllUsers(r.allUsers))
      && if Truthy(me.channel) && me.channel.value in s.channels then
           var channel := me.channel.value;
           var roster := Without(s.channels[channel].participants, name);
           && r.channels == s.channels[channel := Channel(s.channels[channel].owner, roster)]
           && |r.outbox| == |s.outbox| + 3
           && r.outbox[|s.outbox|] == Emission(Room(channel), RoomMembers(r.conns, channel), Participants(roster))
           && r.outbox[|s.outbox| + 1] == Emission(Room(channel), RoomMembers(r.conns, channel), Message(System(name + " left")))
         else
           && r.channels == s.channels
           && |r.outbox| == |s.outbox| + 1
  {
    var k := Position(s.conns, id).value;
    UnregisterKeepsIds(s.conns, k);
  }

  /** A socket with no name, or with the empty name, leaves without any cleanup or emission. */
  lemma DisconnectUnnamed(s: State, id: ConnId)
    requires id in Ids(s.conns)
    requires !Truthy(Caller(s, id))
    ensures var r := DisconnectStep(s, id);
      && r.channels == s.channels
      && r.allUsers == s.allUsers
      && r.outbox == s.outbox
      && r.conns == Unregister(s.conns, Position(s.conns, id).value)
  {
  }

  /**
   The online list is not "names held by a live socket": when two sockets
   share a name and one disconnects, the name is gone from the list although
   the other socket still holds it.
   */
  lemma SharedNameDroppedOnDisconnect(s: State, id: ConnId, other: nat)
    requires UniqueIds(s.conns)
    requires id in Ids(s.conns)
    requires Truthy(Caller(s, id))
    requires other < |s.conns| && s.conns[other].id != id && s.conns[other].username == Caller(s, id)
    ensures var r := DisconnectStep(s, id);
      var name := Caller(s, id).value;
      && name !in r.allUsers
      && exists i :: 0 <= i < |r.conns| && r.conns[i].username == Some(name)
  {
    var r := DisconnectStep(s, id);
    var k := Position(s.conns, id).value;
    var i := if other < k then other else other - 1;
    assert other != k;
    assert r.conns[i] == s.conns[other];
  }
}
