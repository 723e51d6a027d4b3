/**
 The registry of live connections: socket.io's `io.sockets.sockets`, which keeps
 the sockets in the order they connected, together with the two fields the
 handlers write on a socket (`socket.username`, `socket.channel`) and the set of
 rooms the socket is in.
 */
module Registry {
  import opened Wrappers

  /** The transport's socket id; it also names the room each socket starts in. */
  type ConnId = string

  /** One live connection. `None` stands for a field the handlers never set. */
  datatype Conn = Conn(id: ConnId, username: Option<string>, channel: Option<string>, rooms: set<string>)

  /** The transport never hands out the same id to two live sockets. */
  predicate UniqueIds(conns: seq<Conn>) {
    forall i, j :: 0 <= i < j < |conns| ==> conns[i].id != conns[j].id
  }

  /** Every live connection: the audience of `io.emit`. */
  function Ids(conns: seq<Conn>): set<ConnId> {
    set i | 0 <= i < |conns| :: conns[i].id
  }

  /** The audience of `io.to(room).emit`, resolved against current membership. */
  function RoomMembers(conns: seq<Conn>, room: string): (r: set<ConnId>)
    ensures r <= Ids(conns)
    ensures forall i :: 0 <= i < |conns| && room in conns[i].rooms ==> conns[i].id in r
  {
    set i | 0 <= i < |conns| && room in conns[i].rooms :: conns[i].id
  }

  /** A room emit reaches exactly the live sockets in that room. */
  lemma RoomMembersExactly(conns: seq<Conn>, room: string, x: ConnId)
    ensures x in RoomMembers(conns, room) <==> exists i :: 0 <= i < |conns| && conns[i].id == x && room in conns[i].rooms
  {
  }

  /** The socket fresh from the `connection` event: no username, no channel, in its own room. */
  function NewConn(id: ConnId): (c: Conn)
    ensures c.id == id && c.username.None? && c.channel.None?
    ensures c.rooms == {id}
  {
    Conn(id, None, None, {id})
  }

  /** Where the socket with this id sits in the registry. */
  function Position(conns: seq<Conn>, id: ConnId): (r: Option<nat>)
    ensures r.Some? ==> r.value < |conns| && conns[r.value].id == id
    ensures r.Some? ==> forall j :: 0 <= j < r.value ==> conns[j].id != id
    ensures r.None? <==> id !in Ids(conns)
  {
    if conns == [] then None
    else if conns[0].id == id then Some(0)
    else match Position(conns[1..], id)
      case None =>
        assert forall j :: 1 <= j < |conns| ==> conns[j] == conns[1..][j - 1];
        None
      case Some(k) =>
        assert conns[k + 1] == conns[1..][k];
        Some(k + 1)
  }

  /**
   `[...io.sockets.sockets.values()].find((s) => s.username === target)`:
   the first registered connection whose username is `target`.
   */
  function FirstNamed(conns: seq<Conn>, target: string): (r: Option<nat>)
    ensures r.Some? ==> r.value < |conns| && conns[r.value].username == Some(target)
    ensures r.Some? ==> forall j :: 0 <= j < r.value ==> conns[j].username != Some(target)
    ensures r.None? <==> forall j :: 0 <= j < |conns| ==> conns[j].username != Some(target)
  {
    if conns == [] then None
    else if conns[0].username == Some(target) then Some(0)
    else match FirstNamed(conns[1..], target)
      case None =>
        assert forall j :: 1 <= j < |conns| ==> conns[j] == conns[1..][j - 1];
        None
      case Some(k) =>
        assert conns[k + 1] == conns[1..][k];
        assert forall j :: 1 <= j < k + 1 ==> conns[j] == conns[1..][j - 1];
        Some(k + 1)
  }

  /** The socket.io registry after a disconnect: the socket at `k` dropped, the others kept in order. */
  function Unregister(conns: seq<Conn>, k: nat): (r: seq<Conn>)
    requires k < |conns|
    ensures |r| == |conns| - 1
    ensures forall i :: 0 <= i < |r| ==> r[i] == (if i < k then conns[i] else conns[i + 1])
  {
    conns[..k] + conns[k + 1..]
  }

  /** Dropping a socket keeps ids unique and takes exactly its id out of the live set. */
  lemma UnregisterKeepsIds(conns: seq<Conn>, k: nat)
    requires k < |conns|
    requires UniqueIds(conns)
    ensures UniqueIds(Unregister(conns, k))
    ensures Ids(Unregister(conns, k)) == Ids(conns) - {conns[k].id}
  {
    var r := Unregister(conns, k);
    forall x | x in Ids(conns) - {conns[k].id} ensures x in Ids(r) {
      var i :| 0 <= i < |conns| && conns[i].id == x;
      assert i != k;
      if i < k { assert r[i] == conns[i]; } else { assert r[i - 1] == conns[i]; }
    }
  }

  /** The registry with one connection's record replaced by another for the same id. */
  lemma UpdateKeepsIds(conns: seq<Conn>, k: nat, c: Conn)
    requires k < |conns| && c.id == conns[k].id
    requires UniqueIds(conns)
    ensures UniqueIds(conns[k := c])
    ensures Ids(conns[k := c]) == Ids(conns)
  {
    var r := conns[k := c];
    forall x | x in Ids(conns) ensures x in Ids(r) {
      var i :| 0 <= i < |conns| && conns[i].id == x;
      assert r[i].id == x;
    }
  }

  /** Registering a socket whose id is not live keeps ids unique. */
  lemma RegisterKeepsIds(conns: seq<Conn>, c: Conn)
    requires UniqueIds(conns) && c.id !in Ids(conns)
    ensures UniqueIds(conns + [c])
    ensures Ids(conns + [c]) == Ids(conns) + {c.id}
  {
    var r := conns + [c];
    forall x | x in Ids(conns) ensures x in Ids(r) {
      var i :| 0 <= i < |conns| && conns[i].id == x;
      assert r[i].id == x;
    }
    assert r[|conns|].id == c.id;
    forall i | 0 <= i < |conns| ensures conns[i].id != c.id {
      assert conns[i].id in Ids(conns);
    }
  }

  /** The live ids and a room's members, one registration at a time. */
  lemma AudienceOfAppend(conns: seq<Conn>, c: Conn, room: string)
    ensures Ids(conns + [c]) == Ids(conns) + {c.id}
    ensures RoomMembers(conns + [c], room) == RoomMembers(conns, room) + (if room in c.rooms then {c.id} else {})
  {
    var r := conns + [c];
    assert r[|conns|] == c;
    forall x | x in Ids(conns) ensures x in Ids(r) {
      var i :| 0 <= i < |conns| && conns[i].id == x;
      assert r[i] == conns[i];
    }
    forall x | x in RoomMembers(conns, room) ensures x in RoomMembers(r, room) {
      var i :| 0 <= i < |conns| && room in conns[i].rooms && conns[i].id == x;
      assert r[i] == conns[i];
    }
  }
}
