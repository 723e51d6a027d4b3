/** The two-user walk-through: alice creates "general", bob joins, alice kicks bob, bob leaves. */
module Scenario {
  import opened Wrappers
  import opened Roster
  import opened Registry
  import opened Relay
  import RelayProofs

  function Walkthrough(): seq<Command> {
    [ OnConnection("A"), OnConnection("B"),
      OnJoin("A", "general", "alice"), OnJoin("B", "general", "bob"),
      OnKick("A", "general", "bob"), OnDisconnect("B") ]
  }

  // The sockets along the way: alice joined, bob joined, bob kicked out of the room.
  function Alice(): Conn { Conn("A", Some("alice"), Some("general"), {"A", "general"}) }
  function Bob(): Conn { Conn("B", Some("bob"), Some("general"), {"B", "general"}) }
  function BobKicked(): Conn { Conn("B", Some("bob"), Some("general"), {"B"}) }

  function Connected(): State {
    State(map[], [], [NewConn("A"), NewConn("B")], [])
  }

  function AliceJoined(): State {
    State(map["general" := Channel("alice", ["alice"])], ["alice"], [Alice(), NewConn("B")], [
      Emission(Room("general"), {"A"}, Owner("alice")),
      Emission(Room("general"), {"A"}, Participants(["alice"])),
      Emission(Everyone, {"A", "B"}, AllUsers(["alice"])),
      Emission(Room("general"), {"A"}, Message(System("alice joined")))])
  }

  function BobJoined(): State {
    State(map["general" := Channel("alice", ["alice", "bob"])], ["alice", "bob"], [Alice(), Bob()],
      AliceJoined().outbox + [
      Emission(Room("general"), {"A", "B"}, Participants(["alice", "bob"])),
      Emission(Everyone, {"A", "B"}, AllUsers(["alice", "bob"])),
      Emission(Room("general"), {"A", "B"}, Message(System("bob joined")))])
  }

  function BobKickedOut(): State {
    State(map["general" := Channel("alice", ["alice"])], ["alice", "bob"], [Alice(), BobKicked()],
      BobJoined().outbox + [
      Emission(Room("general"), {"A", "B"}, Participants(["alice"])),
      Emission(Direct("B"), {"B"}, Kicked("general")),
      Emission(Room("general"), {"A"}, Message(System("bob was kicked by alice")))])
  }

  function BobLeft(): State {
    State(map["general" := Channel("alice", ["alice"])], ["alice"], [Alice()],
      BobKickedOut().outbox + [
      Emission(Room("general"), {"A"}, Participants(["alice"])),
      Emission(Room("general"), {"A"}, Message(System("bob left"))),
      Emission(Everyone, {"A"}, AllUsers(["alice"]))])
  }

  lemma ConnectBoth()
    ensures Step(Step(Init(), OnConnection("A")), OnConnection("B")) == Connected()
  {
    AudienceOfAppend([], NewConn("A"), "general");
    assert [] + [NewConn("A")] == [NewConn("A")];
  }

  lemma AliceCreatesGeneral()
    ensures Step(Connected(), OnJoin("A", "general", "alice")) == AliceJoined()
  {
    var s, r := Connected(), AliceJoined();
    AudienceOfAppend([], NewConn("A"), "general");
    AudienceOfAppend([NewConn("A")], NewConn("B"), "general");
    assert [] + [NewConn("A")] == [NewConn("A")] && [NewConn("A")] + [NewConn("B")] == s.conns;
    assert "A" in Ids(s.conns);
    AudienceOfAppend([], Alice(), "general");
    AudienceOfAppend([Alice()], NewConn("B"), "general");
    assert [] + [Alice()] == [Alice()] && [Alice()] + [NewConn("B")] == r.conns;
    assert RoomMembers(r.conns, "general") == {"A"};
    assert Ids(r.conns) == {"A", "B"};
    assert Position(s.conns, "A") == Some(0);
    assert AppendIfAbsent([], "alice") == ["alice"];
    assert "alice" + " joined" == "alice joined";
    assert NewConn("A").rooms + {"general"} == Alice().rooms;
    var j := JoinStep(s, "A", "general", "alice");
    assert j.conns == s.conns[0 := Alice()] == r.conns;
    assert j.channels == r.channels;
    assert j.allUsers == r.allUsers;
    assert j.outbox == r.outbox;
  }

  lemma BobJoinsGeneral()
    ensures Step(AliceJoined(), OnJoin("B", "general", "bob")) == BobJoined()
  {
    var s, r := AliceJoined(), BobJoined();
    assert s.conns == [Alice(), NewConn("B")];
    assert Position(s.conns, "B") == Some(1);
    assert "B" in Ids(s.conns);
    RelayProofs.JoinStepParts(s, "B", "general", "bob");
    var j := JoinStep(s, "B", "general", "bob");
    assert j.conns == r.conns by {
      assert NewConn("B").rooms + {"general"} == Bob().rooms;
      assert j.conns == s.conns[1 := Bob()];
    }
    assert j.channels == r.channels && j.allUsers == r.allUsers by {
      assert "bob" != "alice";
      assert AppendIfAbsent(["alice"], "bob") == ["alice", "bob"];
    }
    BobJoinOutbox();
  }

  /** What bob's join emits: the roster and "bob joined" to both sockets in "general", the online list to both. */
  lemma BobJoinOutbox()
    ensures "B" in Ids(AliceJoined().conns)
    ensures JoinStep(AliceJoined(), "B", "general", "bob").outbox == BobJoined().outbox
  {
    var s := AliceJoined();
    assert s.conns == [Alice(), NewConn("B")];
    assert Position(s.conns, "B") == Some(1);
    RelayProofs.JoinStepParts(s, "B", "general", "bob");
    var conns := [Alice(), Bob()];
    assert NewConn("B").rooms + {"general"} == Bob().rooms;
    assert s.conns[1 := NewConn("B").(username := Some("bob"), channel := Some("general"), rooms := NewConn("B").rooms + {"general"})] == conns;
    assert RoomMembers(conns, "general") == {"A", "B"} && Ids(conns) == {"A", "B"} by {
      AudienceOfAppend([], Alice(), "general");
      AudienceOfAppend([Alice()], Bob(), "general");
      assert [] + [Alice()] == [Alice()] && [Alice()] + [Bob()] == conns;
    }
    assert AppendIfAbsent(["alice"], "bob") == ["alice", "bob"];
    var e1 := Emit(conns, Room("general"), Participants(["alice", "bob"]));
    var e2 := Emit(conns, Everyone, AllUsers(["alice", "bob"]));
    var e3 := Emit(conns, Room("general"), Message(System("bob" + " joined")));
    assert "bob" + " joined" == "bob joined";
    assert e1 == Emission(Room("general"), {"A", "B"}, Participants(["alice", "bob"]));
    assert e2 == Emission(Everyone, {"A", "B"}, AllUsers(["alice", "bob"]));
    assert e3 == Emission(Room("general"), {"A", "B"}, Message(System("bob joined")));
    assert JoinStep(s, "B", "general", "bob").outbox == s.outbox + [] + [e1] + [e2] + [e3];
  }

  /** Who is kicking and who is found: alice owns "general", and bob's socket is the second. */
  lemma KickLookups()
    ensures "A" in Ids(BobJoined().conns)
    ensures MayKick(BobJoined(), "A", "general")
    ensures FirstNamed(BobJoined().conns, "bob") == Some(1)
    ensures Without(["alice", "bob"], "bob") == ["alice"]
  {
    var s := BobJoined();
    assert s.conns == [Alice(), Bob()];
    assert Position(s.conns, "A") == Some(0);
  }

  /** The room before and after bob's socket leaves it. */
  lemma KickAudiences()
    ensures RoomMembers([Alice(), Bob()], "general") == {"A", "B"}
    ensures RoomMembers([Alice(), BobKicked()], "general") == {"A"}
  {
    AudienceOfAppend([], Alice(), "general");
    AudienceOfAppend([Alice()], Bob(), "general");
    AudienceOfAppend([Alice()], BobKicked(), "general");
    assert [] + [Alice()] == [Alice()] && [Alice()] + [Bob()] == [Alice(), Bob()];
    assert [Alice()] + [BobKicked()] == [Alice(), BobKicked()];
  }

  /** The kick line spelled out: a string concatenation fact for the solver. */
  lemma KickLine()
    ensures "bob" + " was kicked by " + "alice" == "bob was kicked by alice"
  {
    var line := "bob" + " was kicked by ";
    assert line == "bob was kicked by ";
  }

  lemma KickOutbox()
    requires "A" in Ids(BobJoined().conns)
    ensures KickStep(BobJoined(), "A", "general", "bob").outbox == BobKickedOut().outbox
  {
    KickLookups();
    KickAudiences();
    KickLine();
    var s, r := BobJoined(), BobKickedOut();
    var k := KickStep(s, "A", "general", "bob");
    assert s.conns == [Alice(), Bob()];
    assert s.conns[1].(rooms := s.conns[1].rooms - {"general"}) == BobKicked();
    var after := s.conns[1 := BobKicked()];
    assert after == r.conns;
    var x1 := Emit(s.conns, Room("general"), Participants(["alice"]));
    var x2 := Emit(after, Direct("B"), Kicked("general"));
    var x3 := Emit(after, Room("general"), Message(System("bob" + " was kicked by " + "alice")));
    assert k.outbox == s.outbox + [x1] + [x2] + [x3];
  }

  lemma AliceKicksBob()
    ensures Step(BobJoined(), OnKick("A", "general", "bob")) == BobKickedOut()
  {
    KickLookups();
    KickOutbox();
    var s, r := BobJoined(), BobKickedOut();
    var k := KickStep(s, "A", "general", "bob");
    assert k.conns == r.conns by {
      assert s.conns == [Alice(), Bob()];
      assert Bob().rooms - {"general"} == BobKicked().rooms;
      assert k.conns == s.conns[1 := BobKicked()];
    }
    assert k.channels == r.channels && k.allUsers == r.allUsers;
  }

  lemma BobDisconnects()
    ensures Step(BobKickedOut(), OnDisconnect("B")) == BobLeft()
  {
    var s, r := BobKickedOut(), BobLeft();
    assert s.conns == [Alice(), BobKicked()];
    assert Position(s.conns, "B") == Some(1);
    assert "B" in Ids(s.conns);
    var d := DisconnectStep(s, "B");
    assert d.conns == r.conns by {
      assert Unregister(s.conns, 1) == r.conns;
    }
    assert Without(["alice", "bob"], "bob") == ["alice"];
    assert Without(["alice"], "bob") == ["alice"];
    assert d.channels == r.channels && d.allUsers == r.allUsers;
    BobLeftOutbox();
  }

  /** What bob's disconnect emits: the roster and "bob left" in "general", then the online list, all to alice alone. */
  lemma BobLeftOutbox()
    ensures "B" in Ids(BobKickedOut().conns)
    ensures DisconnectStep(BobKickedOut(), "B").outbox == BobLeft().outbox
  {
    var s := BobKickedOut();
    assert s.conns == [Alice(), BobKicked()];
    assert Position(s.conns, "B") == Some(1);
    var conns := [Alice()];
    assert Unregister(s.conns, 1) == conns;
    assert RoomMembers(conns, "general") == {"A"} && Ids(conns) == {"A"} by {
      AudienceOfAppend([], Alice(), "general");
      assert [] + [Alice()] == conns;
    }
    assert Without(["alice", "bob"], "bob") == ["alice"];
    assert Without(["alice"], "bob") == ["alice"];
    var e1 := Emit(conns, Room("general"), Participants(["alice"]));
    var e2 := Emit(conns, Room("general"), Message(System("bob" + " left")));
    var e3 := Emit(conns, Everyone, AllUsers(["alice"]));
    assert "bob" + " left" == "bob left";
    assert e1 == Emission(Room("general"), {"A"}, Participants(["alice"]));
    assert e2 == Emission(Room("general"), {"A"}, Message(System("bob left")));
    assert e3 == Emission(Everyone, {"A"}, AllUsers(["alice"]));
    assert DisconnectStep(s, "B").outbox == s.outbox + [e1, e2, e3];
  }

  /** The first event of a stream is handled first. */
  lemma RunFirst(s: State, cmds: seq<Command>)
    requires cmds != []
    ensures Run(s, cmds) == Run(Step(s, cmds[0]), cmds[1..])
  {
  }

  /** Six events handled one after another. */
  lemma RunSix(s: State, cmds: seq<Command>)
    requires |cmds| == 6
    ensures Run(s, cmds) == Step(Step(Step(Step(Step(Step(s, cmds[0]), cmds[1]), cmds[2]), cmds[3]), cmds[4]), cmds[5])
  {
    var t1 := cmds[1..];
    var t2 := t1[1..];
    var t3 := t2[1..];
    var t4 := t3[1..];
    var t5 := t4[1..];
    assert t1[0] == cmds[1] && t2[0] == cmds[2] && t3[0] == cmds[3] && t4[0] == cmds[4] && t5[0] == cmds[5];
    var s1 := Step(s, cmds[0]);
    var s2 := Step(s1, cmds[1]);
    var s3 := Step(s2, cmds[2]);
    var s4 := Step(s3, cmds[3]);
    var s5 := Step(s4, cmds[4]);
    RunFirst(s, cmds);
    RunFirst(s1, t1);
    RunFirst(s2, t2);
    RunFirst(s3, t3);
    RunFirst(s4, t4);
    RunFirst(s5, t5);
    assert t5[1..] == [];
  }

  /**
   The walk-through end to end: alice owns "general" throughout and it is
   announced once; bob's join reaches both sockets; the roster update of the
   kick still reaches bob, the `kicked` event reaches only bob and the kick
   line only alice; bob's later disconnect still announces "bob left" in
   "general", because a kick does not clear the kicked socket's channel.
   */
  lemma {:induction false} WalkthroughOutcome()
    ensures Run(Init(), Walkthrough()) == BobLeft()
  {
    var cmds := Walkthrough();
    ConnectBoth();
    AliceCreatesGeneral();
    BobJoinsGeneral();
    AliceKicksBob();
    BobDisconnects();
    RunSix(Init(), cmds);
  }
}
