/**
 Properties of the relay: what each handler promises, and what holds of every
 event stream.
 */
module RelayProofs {
  import opened Wrappers
  import opened Roster
  import opened Registry
  import opened Relay

  // ---------------------------------------------------------------------------
  // The invariant: no duplicate names, unique socket ids, recorded channels exist.

  lemma ConnectPreservesInv(s: State, id: ConnId)
    requires Inv(s) && id !in Ids(s.conns)
    ensures Inv(ConnectStep(s, id))
  {
    RegisterKeepsIds(s.conns, NewConn(id));
  }

  lemma JoinPreservesInv(s: State, id: ConnId, channel: string, username: string)
    requires Inv(s) && id in Ids(s.conns)
    ensures Inv(JoinStep(s, id, channel, username))
  {
    var k := Position(s.conns, id).value;
    var me := s.conns[k];
    UpdateKeepsIds(s.conns, k, me.(username := Some(username), channel := Some(channel), rooms := me.rooms + {channel}));
  }

  lemma KickPreservesInv(s: State, id: ConnId, channel: string, target: string)
    requires Inv(s) && id in Ids(s.conns)
    ensures Inv(KickStep(s, id, channel, target))
  {
    if MayKick(s, id, channel) {
      WithoutKeepsNoDups(s.channels[channel].participants, target);
      var found := FirstNamed(s.conns, target);
      if found.Some? {
        var t := found.value;
        UpdateKeepsIds(s.conns, t, s.conns[t].(rooms := s.conns[t].rooms - {channel}));
      }
    }
  }

  lemma DisconnectPreservesInv(s: State, id: ConnId)
    requires Inv(s) && id in Ids(s.conns)
    ensures Inv(DisconnectStep(s, id))
  {
    var k := Position(s.conns, id).value;
    var me := s.conns[k];
    UnregisterKeepsIds(s.conns, k);
    if Truthy(me.username) {
      WithoutKeepsNoDups(s.allUsers, me.username.value);
      if Truthy(me.channel) && me.channel.value in s.channels {
        WithoutKeepsNoDups(s.channels[me.channel.value].participants, me.username.value);
      }
    }
  }

  lemma StepPreservesInv(s: State, cmd: Command)
    requires Inv(s)
    ensures Inv(Step(s, cmd))
  {
    match cmd
    case OnConnection(id) =>
      if id !in Ids(s.conns) { ConnectPreservesInv(s, id); }
    case OnJoin(id, channel, username) =>
      if id in Ids(s.conns) { JoinPreservesInv(s, id, channel, username); }
    case OnMessage(_, _, _, _) =>
    case OnKick(id, channel, target) =>
      if id in Ids(s.conns) { KickPreservesInv(s, id, channel, target); }
    case OnDisconnect(id) =>
      if id in Ids(s.conns) { DisconnectPreservesInv(s, id); }
  }

  /** No event stream ever produces a duplicate name, a duplicate id or a dangling channel. */
  lemma {:induction false} RunPreservesInv(s: State, cmds: seq<Command>)
    requires Inv(s)
    ensures Inv(Run(s, cmds))
    decreases |cmds|
  {
    if cmds != [] {
      StepPreservesInv(s, cmds[0]);
      RunPreservesInv(Step(s, cmds[0]), cmds[1..]);
    }
  }

  lemma InitSatisfiesInv()
    ensures Inv(Init()) && Announced(Init())
  {
  }

  // ---------------------------------------------------------------------------
  // Channels are never deleted and their owner is never reassigned.

  /** `after` keeps every channel of `before`, with the same owner. */
  ghost predicate OwnersKept(before: map<string, Channel>, after: map<string, Channel>) {
    forall c :: c in before ==> c in after && after[c].owner == before[c].owner
  }

  lemma StepKeepsOwners(s: State, cmd: Command)
    ensures OwnersKept(s.channels, Step(s, cmd).channels)
  {
  }

  lemma {:induction false} RunKeepsOwners(s: State, cmds: seq<Command>)
    ensures OwnersKept(s.channels, Run(s, cmds).channels)
    decreases |cmds|
  {
    if cmds != [] {
      var s' := Step(s, cmds[0]);
      StepKeepsOwners(s, cmds[0]);
      RunKeepsOwners(s', cmds[1..]);
    }
  }

  // ---------------------------------------------------------------------------
  // The `owner` event: once per channel, at creation, naming the creator.

  lemma {:induction false} OwnerNoticesAppend(a: seq<Emission>, b: seq<Emission>, c: string)
    ensures OwnerNotices(a + b, c) == OwnerNotices(a, c) + OwnerNotices(b, c)
    decreases |b|
  {
    if b != [] {
      var b' := b[..|b| - 1];
      assert (a + b)[..|a + b| - 1] == a + b';
      OwnerNoticesAppend(a, b', c);
    } else {
      assert a + b == a;
    }
  }

  /** `OwnerNotices` of a batch that has no `owner` event at all. */
  lemma NoOwnerNotices(b: seq<Emission>, c: string)
    requires forall i :: 0 <= i < |b| ==> !b[i].notice.Owner?
    ensures OwnerNotices(b, c) == []
    decreases |b|
  {
    if b != [] {
      NoOwnerNotices(b[..|b| - 1], c);
    }
  }

  /** A batch with no `owner` event, over the same channels and owners, keeps `Announced`. */
  lemma AnnouncedWithoutOwnerEvents(s: State, r: State, b: seq<Emission>)
    requires Announced(s)
    requires r.outbox == s.outbox + b
    requires forall i :: 0 <= i < |b| ==> !b[i].notice.Owner?
    requires r.channels.Keys == s.channels.Keys
    requires forall c :: c in s.channels ==> r.channels[c].owner == s.channels[c].owner
    ensures Announced(r)
  {
    forall c ensures OwnerNotices(r.outbox, c) == (if c in r.channels then [r.channels[c].owner] else []) {
      OwnerNoticesAppend(s.outbox, b, c);
      NoOwnerNotices(b, c);
    }
  }

  /** A one-element batch holding an `owner` event for `channel`. */
  lemma SingleOwnerNotice(e: Emission, channel: string, username: string, c: string)
    requires e.scope == Room(channel) && e.notice == Owner(username)
    ensures OwnerNotices([e], c) == if c == channel then [username] else []
  {
    assert [e][..0] == [];
  }

  /** `Announced` after a batch whose only `owner` event is the one a channel's creation emits. */
  lemma AnnouncedAfterBatch(s: State, r: State, announce: seq<Emission>, rest: seq<Emission>, channel: string, owner: string)
    requires Announced(s)
    requires r.outbox == s.outbox + announce + rest
    requires forall i :: 0 <= i < |rest| ==> !rest[i].notice.Owner?
    requires channel !in s.channels ==> |announce| == 1 && announce[0].scope == Room(channel) && announce[0].notice == Owner(owner)
    requires channel in s.channels ==> announce == []
    requires r.channels.Keys == s.channels.Keys + {channel}
    requires r.channels[channel].owner == if channel in s.channels then s.channels[channel].owner else owner
    requires forall c :: c in s.channels && c != channel ==> r.channels[c].owner == s.channels[c].owner
    ensures Announced(r)
  {
    var front := s.outbox + announce;
    assert r.outbox == front + rest;
    forall c ensures OwnerNotices(r.outbox, c) == (if c in r.channels then [r.channels[c].owner] else []) {
      var before := OwnerNotices(s.outbox, c);
      assert before == if c in s.channels then [s.channels[c].owner] else [];
      OwnerNoticesAppend(front, rest, c);
      NoOwnerNotices(rest, c);
      OwnerNoticesAppend(s.outbox, announce, c);
      if channel !in s.channels {
        assert announce == [announce[0]];
        SingleOwnerNotice(announce[0], channel, owner, c);
        assert OwnerNotices(r.outbox, c) == before + (if c == channel then [owner] else []);
      } else {
        NoOwnerNotices(announce, c);
        assert OwnerNotices(r.outbox, c) == before;
      }
    }
  }

  /** The state a join leaves, field by field, for the in-place handler to match one update at a time. */
  lemma JoinStepParts(s: State, id: ConnId, channel: string, username: string)
    requires id in Ids(s.conns)
    ensures var k := Position(s.conns, id).value;
      var conns := s.conns[k := s.conns[k].(username := Some(username), channel := Some(channel), rooms := s.conns[k].rooms + {channel})];
      var ch := if channel in s.channels then s.channels[channel] else Channel(username, []);
      var roster := AppendIfAbsent(ch.participants, username);
      var users := AppendIfAbsent(s.allUsers, username);
      var announce := if channel in s.channels then [] else [Emit(conns, Room(channel), Owner(username))];
      var created := if channel in s.channels then s.channels else s.channels[channel := Channel(username, [])];
      JoinStep(s, id, channel, username) == State(
        created[channel := ch.(participants := roster)],
        users,
        conns,
        s.outbox + announce
          + [Emit(conns, Room(channel), Participants(roster))]
          + [Emit(conns, Everyone, AllUsers(users))]
          + [Emit(conns, Room(channel), Message(System(username + " joined")))])
  {
    var k := Position(s.conns, id).value;
    var ch := if channel in s.channels then s.channels[channel] else Channel(username, []);
    var created := if channel in s.channels then s.channels else s.channels[channel := Channel(username, [])];
    assert created[channel := ch.(participants := AppendIfAbsent(ch.participants, username))]
        == s.channels[channel := ch.(participants := AppendIfAbsent(ch.participants, username))];
  }

  /** How a join's emissions split: the creation's `owner` event, if any, then three others. */
  lemma JoinBatches(s: State, id: ConnId, channel: string, username: string)
      returns (announce: seq<Emission>, rest: seq<Emission>)
    requires id in Ids(s.conns)
    ensures var r := JoinStep(s, id, channel, username);
      && r.outbox == s.outbox + announce + rest
      && (forall i :: 0 <= i < |rest| ==> !rest[i].notice.Owner?)
      && (channel !in s.channels ==> |announce| == 1 && announce[0].scope == Room(channel) && announce[0].notice == Owner(username))
      && (channel in s.channels ==> announce == [])
      && r.channels.Keys == s.channels.Keys + {channel}
      && r.channels[channel].owner == (if channel in s.channels then s.channels[channel].owner else username)
      && (forall c :: c in s.channels && c != channel ==> r.channels[c].owner == s.channels[c].owner)
  {
    var r := JoinStep(s, id, channel, username);
    var k := Position(s.conns, id).value;
    var me := s.conns[k];
    var conns := s.conns[k := me.(username := Some(username), channel := Some(channel), rooms := me.rooms + {channel})];
    var created := channel !in s.channels;
    var ch := if created then Channel(username, []) else s.channels[channel];
    var roster := AppendIfAbsent(ch.participants, username);
    var users := AppendIfAbsent(s.allUsers, username);
    announce := if created then [Emit(conns, Room(channel), Owner(username))] else [];
    var e1, e2, e3 :=
        Emit(conns, Room(channel), Participants(roster)),
        Emit(conns, Everyone, AllUsers(users)),
        Emit(conns, Room(channel), Message(System(username + " joined")));
    rest := [e1, e2, e3];
    assert !e1.notice.Owner? && !e2.notice.Owner? && !e3.notice.Owner?;
    assert r.outbox == s.outbox + announce + rest;
    assert r.channels == s.channels[channel := ch.(participants := roster)];
  }

  lemma JoinKeepsAnnounced(s: State, id: ConnId, channel: string, username: string)
    requires Announced(s) && id in Ids(s.conns)
    ensures Announced(JoinStep(s, id, channel, username))
  {
    var announce, rest := JoinBatches(s, id, channel, username);
    AnnouncedAfterBatch(s, JoinStep(s, id, channel, username), announce, rest, channel, username);
  }

  /** A kick emits no `owner` event and keeps every channel's owner. */
  lemma KickBatch(s: State, id: ConnId, channel: string, target: string) returns (rest: seq<Emission>)
    requires id in Ids(s.conns)
    ensures var r := KickStep(s, id, channel, target);
      && r.outbox == s.outbox + rest
      && (forall i :: 0 <= i < |rest| ==> !rest[i].notice.Owner?)
      && r.channels.Keys == s.channels.Keys
      && (forall c :: c in s.channels ==> r.channels[c].owner == s.channels[c].owner)
  {
    var r := KickStep(s, id, channel, target);
    if MayKick(s, id, channel) {
      var owner := s.channels[channel].owner;
      var roster := Without(s.channels[channel].participants, target);
      var update := Emit(s.conns, Room(channel), Participants(roster));
      var found := FirstNamed(s.conns, target);
      var conns :=
        if found.Some? then
          s.conns[found.value := s.conns[found.value].(rooms := s.conns[found.value].rooms - {channel})]
        else s.conns;
      var direct := if found.Some? then [Emit(conns, Direct(s.conns[found.value].id), Kicked(channel))] else [];
      var notice := Emit(conns, Room(channel), Message(System(target + " was kicked by " + owner)));
      rest := [update] + direct + [notice];
      assert !update.notice.Owner? && !notice.notice.Owner?;
      assert forall i :: 0 <= i < |direct| ==> direct[i].notice.Kicked?;
      forall i | 0 <= i < |rest| ensures !rest[i].notice.Owner? {
        if 0 < i < |rest| - 1 { assert rest[i] == direct[i - 1]; }
      }
      assert r.outbox == s.outbox + rest;
      assert r.channels == s.channels[channel := Channel(owner, roster)];
    } else {
      rest := [];
      assert r.outbox == s.outbox + rest;
    }
  }

  lemma KickKeepsAnnounced(s: State, id: ConnId, channel: string, target: string)
    requires Announced(s) && id in Ids(s.conns)
    ensures Announced(KickStep(s, id, channel, target))
  {
    var rest := KickBatch(s, id, channel, target);
    AnnouncedWithoutOwnerEvents(s, KickStep(s, id, channel, target), rest);
  }

  /** A disconnect emits no `owner` event and keeps every channel's owner. */
  lemma DisconnectBatch(s: State, id: ConnId) returns (rest: seq<Emission>)
    requires id in Ids(s.conns)
    ensures var r := DisconnectStep(s, id);
      && r.outbox == s.outbox + rest
      && (forall i :: 0 <= i < |rest| ==> !rest[i].notice.Owner?)
      && r.channels.Keys == s.channels.Keys
      && (forall c :: c in s.channels ==> r.channels[c].owner == s.channels[c].owner)
  {
    var r := DisconnectStep(s, id);
    var k := Position(s.conns, id).value;
    var me := s.conns[k];
    var conns := Unregister(s.conns, k);
    rest := [];
    if Truthy(me.username) {
      var name := me.username.value;
      var users := Without(s.allUsers, name);
      var last := Emit(conns, Everyone, AllUsers(users));
      if Truthy(me.channel) && me.channel.value in s.channels {
        var channel := me.channel.value;
        var roster := Without(s.channels[channel].participants, name);
        var e1, e2 :=
            Emit(conns, Room(channel), Participants(roster)),
            Emit(conns, Room(channel), Message(System(name + " left")));
        rest := [e1, e2, last];
        assert !e1.notice.Owner? && !e2.notice.Owner? && !last.notice.Owner?;
      } else {
        rest := [last];
      }
    }
    assert r.outbox == s.outbox + rest;
  }

  lemma DisconnectKeepsAnnounced(s: State, id: ConnId)
    requires Announced(s) && id in Ids(s.conns)
    ensures Announced(DisconnectStep(s, id))
  {
    var rest := DisconnectBatch(s, id);
    AnnouncedWithoutOwnerEvents(s, DisconnectStep(s, id), rest);
  }

  lemma StepKeepsAnnounced(s: State, cmd: Command)
    requires Announced(s)
    ensures Announced(Step(s, cmd))
  {
    match cmd
    case OnConnection(id) =>
    case OnJoin(id, channel, username) =>
      if id in Ids(s.conns) { JoinKeepsAnnounced(s, id, channel, username); }
    case OnMessage(channel, text, username, ts) =>
      var r := MessageStep(s, channel, text, username, ts);
      AnnouncedWithoutOwnerEvents(s, r, [Emit(s.conns, Room(channel), Message(User(username, text, ts)))]);
    case OnKick(id, channel, target) =>
      if id in Ids(s.conns) { KickKeepsAnnounced(s, id, channel, target); }
    case OnDisconnect(id) =>
      if id in Ids(s.conns) { DisconnectKeepsAnnounced(s, id); }
  }

  /**
   From start-up, whatever the events: every channel in the directory has had
   exactly one `owner` event, naming its owner, and no other room has had any.
   */
  lemma {:induction false} RunKeepsAnnounced(s: State, cmds: seq<Command>)
    requires Announced(s)
    ensures Announced(Run(s, cmds))
    decreases |cmds|
  {
    if cmds != [] {
      StepKeepsAnnounced(s, cmds[0]);
      RunKeepsAnnounced(Step(s, cmds[0]), cmds[1..]);
    }
  }

  lemma OwnerAnnouncedOnce(cmds: seq<Command>, c: string)
    ensures var r := Run(Init(), cmds);
      OwnerNotices(r.outbox, c) == if c in r.channels then [r.channels[c].owner] else []
  {
    RunKeepsAnnounced(Init(), cmds);
  }
}
