/**
 * The relay server: a process-wide list `allSockets` of (socket, room) entries.
 * A `join` frame appends an entry; a `chat` frame looks up the sender's room as
 * the room of its first entry and sends the raw message text to every entry of
 * that room, in list order. Nothing ever removes an entry.
 */
module Relay {

  /** The identity of one client connection; the server only compares identities. */
  type SocketId = nat

  /**
   * What an entry holds as its room: a string, or `undefined` when the join frame
   * had no `roomId`. On these two kinds of value JavaScript's `==` is exactly the
   * equality of this datatype (`undefined == undefined`, a string never equals `undefined`).
   */
  datatype RoomValue = Named(name: string) | Undefined

  /** One element of `allSockets`. */
  datatype User = User(socket: SocketId, room: RoomValue)

  /** One call `socket.send(text)`. */
  datatype Send = Send(to: SocketId, text: string)

  /** An already-decoded inbound frame: its `type` and the two payload fields the server reads. */
  datatype Frame = Frame(kind: string, roomId: RoomValue, message: string)

  /** Socket `s` has at least one entry. */
  predicate HasEntry(users: seq<User>, s: SocketId) {
    exists i :: 0 <= i < |users| && users[i].socket == s
  }

  /** Index `i` holds the first entry of socket `s`. */
  predicate FirstEntryOf(users: seq<User>, s: SocketId, i: int) {
    0 <= i < |users| && users[i].socket == s && forall j :: 0 <= j < i ==> users[j].socket != s
  }

  /** `users.find((x) => x.socket == s)?.room`: the room of the first entry of `s`, or `undefined`. */
  function SenderRoom(users: seq<User>, s: SocketId): (r: RoomValue)
    ensures !HasEntry(users, s) ==> r == Undefined
    ensures forall i :: FirstEntryOf(users, s, i) ==> r == users[i].room
  {
    if users == [] then Undefined
    else if users[0].socket == s then users[0].room
    else
      var r := SenderRoom(users[1..], s);
      assert forall i :: FirstEntryOf(users, s, i) ==> FirstEntryOf(users[1..], s, i - 1);
      assert HasEntry(users[1..], s) ==> HasEntry(users, s);
      r
  }

  /** The sends the `chat` loop issues over `users` for room value `room`, in list order. */
  function Fanout(users: seq<User>, room: RoomValue, text: string): (out: seq<Send>)
    ensures |out| <= |users|
    ensures forall k :: 0 <= k < |out| ==> out[k].text == text
  {
    if users == [] then []
    else
      var last := users[|users| - 1];
      Fanout(users[..|users| - 1], room, text)
        + (if last.room == room then [Send(last.socket, text)] else [])
  }

  /** Sends follow `allSockets` order: the entries before a point are served before the entries after it. */
  lemma {:induction false} FanoutAppend(a: seq<User>, b: seq<User>, room: RoomValue, text: string)
    ensures Fanout(a + b, room, text) == Fanout(a, room, text) + Fanout(b, room, text)
    decreases |b|
  {
    if b == [] {
      assert a + b == a;
    } else {
      var b' := b[..|b| - 1];
      assert (a + b)[..|a + b| - 1] == a + b';
      FanoutAppend(a, b', room, text);
    }
  }

  /** A socket receives the text exactly when it has an entry in the room, and it receives no other text. */
  lemma {:induction false} FanoutDelivers(users: seq<User>, room: RoomValue, text: string, s: SocketId, t: string)
    ensures Send(s, t) in Fanout(users, room, text) <==> t == text && User(s, room) in users
  {
    if users != [] {
      var init := users[..|users| - 1];
      FanoutDelivers(init, room, text, s, t);
      assert users == init + [users[|users| - 1]];
    }
  }

  /** A socket with k entries in the room receives the text k times, once per entry. */
  lemma {:induction false} FanoutCount(users: seq<User>, room: RoomValue, text: string, s: SocketId)
    ensures multiset(Fanout(users, room, text))[Send(s, text)] == multiset(users)[User(s, room)]
  {
    if users != [] {
      var init := users[..|users| - 1];
      FanoutCount(init, room, text, s);
      assert users == init + [users[|users| - 1]];
    }
  }

  /** Later entries of the sender do not change its room: only the first entry is looked at. */
  lemma {:induction false} SenderRoomIgnoresLater(a: seq<User>, b: seq<User>, s: SocketId)
    requires HasEntry(a, s)
    ensures SenderRoom(a + b, s) == SenderRoom(a, s)
  {
    if a[0].socket != s {
      assert (a + b)[1..] == a[1..] + b;
      var i :| 0 <= i < |a| && a[i].socket == s;
      assert a[1..][i - 1].socket == s;
      SenderRoomIgnoresLater(a[1..], b, s);
    }
  }

  /** The sender's room has the sender in it: a joined sender receives its own message (echo to self). */
  lemma EchoToSender(users: seq<User>, s: SocketId, text: string)
    requires HasEntry(users, s)
    ensures Send(s, text) in Fanout(users, SenderRoom(users, s), text)
  {
    var i := FirstIndex(users, s);
    FanoutDelivers(users, SenderRoom(users, s), text, s, text);
    assert users[i] == User(s, SenderRoom(users, s));
  }

  /** The index of the first entry of `s`. */
  function FirstIndex(users: seq<User>, s: SocketId): (i: nat)
    requires HasEntry(users, s)
    ensures FirstEntryOf(users, s, i)
  {
    if users[0].socket == s then 0
    else
      var j :| 0 <= j < |users| && users[j].socket == s;
      assert users[1..][j - 1].socket == s;
      1 + FirstIndex(users[1..], s)
  }

  /** A socket that never joined, with only string rooms stored, reaches nobody. */
  lemma StrangerReachesNobody(users: seq<User>, s: SocketId, text: string)
    requires !HasEntry(users, s)
    requires forall i :: 0 <= i < |users| ==> users[i].room.Named?
    ensures Fanout(users, SenderRoom(users, s), text) == []
  {
    var out := Fanout(users, Undefined, text);
    if out != [] {
      FanoutDelivers(users, Undefined, text, out[0].to, out[0].text);
    }
  }

  /**
   * The loose comparison with `undefined` as the code has it: a socket that never
   * joined reaches every entry stored without a room id.
   */
  lemma StrangerReachesRoomless(users: seq<User>, s: SocketId, text: string, t: SocketId)
    requires !HasEntry(users, s)
    requires User(t, Undefined) in users
    ensures Send(t, text) in Fanout(users, SenderRoom(users, s), text)
  {
    FanoutDelivers(users, Undefined, text, t, text);
  }

  /** The server's module state and the trace of every `send` it has issued. */
  class Relay {
    var allSockets: seq<User>
    var sent: seq<Send>

    /** The server starts with no entries and has sent nothing. */
    constructor ()
      ensures allSockets == [] && sent == []
    {
      allSockets := [];
      sent := [];
    }

    /** A `join` frame: one entry at the end, with no check of the room id and no reply. */
    method Join(socket: SocketId, roomId: RoomValue)
      modifies this
      ensures allSockets == old(allSockets) + [User(socket, roomId)]
      ensures sent == old(sent)
    {
      allSockets := allSockets + [User(socket, roomId)];
    }

    /** A `chat` frame: find the sender's room, then send the text to every entry of that room. */
    method Chat(socket: SocketId, message: string)
      modifies this
      ensures allSockets == old(allSockets)
      ensures sent == old(sent) + Fanout(allSockets, SenderRoom(allSockets, socket), message)
    {
      var currentUserRoom := SenderRoom(allSockets, socket);
      var i := 0;
      while i < |allSockets|
        invariant 0 <= i <= |allSockets|
        invariant allSockets == old(allSockets)
        invariant sent == old(sent) + Fanout(allSockets[..i], currentUserRoom, message)
      {
        assert allSockets[..i + 1][..i] == allSockets[..i];
        if allSockets[i].room == currentUserRoom {
          sent := sent + [Send(allSockets[i].socket, message)];
        }
        i := i + 1;
      }
      assert allSockets[..i] == allSockets;
    }

    /** The `message` handler: the `join` branch, then the `chat` branch; any other type does nothing. */
    method OnMessage(socket: SocketId, frame: Frame)
      modifies this
      ensures old(allSockets) <= allSockets
      ensures frame.kind == "join" ==>
        allSockets == old(allSockets) + [User(socket, frame.roomId)] && sent == old(sent)
      ensures frame.kind == "chat" ==>
        allSockets == old(allSockets)
        && sent == old(sent) + Fanout(allSockets, SenderRoom(allSockets, socket), frame.message)
      ensures frame.kind != "join" && frame.kind != "chat" ==> allSockets == old(allSockets) && sent == old(sent)
    {
      if frame.kind == "join" {
        Join(socket, frame.roomId);
      }
      if frame.kind == "chat" {
        Chat(socket, frame.message);
      }
    }
  }
}
