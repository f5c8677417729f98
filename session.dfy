/**
 * The client's reaction to inbound frames (the `useWebSocket` hook): the state
 * cells `messages`, `isConnected`, `currentRoom`, `roomCreated`, `memberCount`
 * and the `attemptedRoom` slot of session storage, and how one `onmessage`
 * event or the `onopen` event changes them.
 */
module WebSocketHook {
  import opened Wrappers
  import opened JsPrimitives

  /**
   * One entry of the `messages` list; `username` is present only on relayed chat.
   * `userId` is what `message.userId` reads in the message list: no object literal
   * of the handler writes that property, so every entry leaves it `undefined`.
   */
  datatype Message = Message(text: string, username: Option<string>, timestamp: string,
                             userId: Option<string> := None)

  /**
   * An inbound event: `raw` is `event.data`. `Parsed` carries the fields the handler
   * reads from `JSON.parse(event.data)`; `Unparseable` is the case in which parsing throws.
   * `memberCount` is `None` when the field is absent.
   */
  datatype Inbound =
    | Parsed(raw: string, kind: string, message: string, memberCount: Option<int>, count: int, username: Option<string>)
    | Unparseable(raw: string)

  /** The state cells, as one value. */
  datatype View = View(
    messages: seq<Message>,
    isConnected: bool,
    currentRoom: string,
    roomCreated: bool,
    memberCount: int,
    attemptedRoom: Option<string>)

  const JoinedMarker: string := "Joined room"
  const CreatedMarker: string := "created successfully"
  const CreatedNotice: string := "Room created! Now you can join it."
  const ConnectedNotice: string := "Connected to server"

  /** JavaScript truthiness of the optional string read from session storage. */
  predicate PendingRoom(a: Option<string>) {
    a.Some? && a.value != ""
  }

  /** JavaScript truthiness of an optional number (NaN is not modelled). */
  predicate Truthy(n: Option<int>) {
    n.Some? && n.value != 0
  }

  /** Appends one message to the list, as `(m) => [...m, x]` does. */
  function Append(v: View, text: string, username: Option<string>, ts: string): View {
    v.(messages := v.messages + [Message(text, username, ts)])
  }

  /** A `success` frame: log the text, then complete a pending join or note a created room. */
  function OnSuccess(v: View, message: string, memberCount: Option<int>, ts: string): (w: View)
    ensures v.messages <= w.messages && |w.messages| > |v.messages|
    ensures w.messages[|v.messages|] == Message(message, None, ts)
    ensures w.memberCount != v.memberCount ==> Truthy(memberCount)
  {
    var v1 := Append(v, message, None, ts);
    if Includes(message, JoinedMarker) then
      if PendingRoom(v.attemptedRoom) then
        v1.(currentRoom := v.attemptedRoom.value,
            isConnected := true,
            memberCount := if Truthy(memberCount) then memberCount.value else v.memberCount,
            attemptedRoom := None)
      else v1
    else if Includes(message, CreatedMarker) then
      Append(v1.(roomCreated := true), CreatedNotice, None, ts)
    else v1
  }

  /** The effect of one `onmessage` event; `ts` stands for every `new Date().toISOString()` of the step. */
  function Dispatch(v: View, ev: Inbound, ts: string): (w: View)
    ensures v.messages <= w.messages
    ensures forall k :: |v.messages| <= k < |w.messages| ==> w.messages[k].userId == None
    ensures w.roomCreated == v.roomCreated || w.roomCreated
  {
    match ev
    case Unparseable(raw) => Append(v, raw, None, ts)
    case Parsed(raw, kind, message, memberCount, count, username) =>
      if kind == "success" then OnSuccess(v, message, memberCount, ts)
      else if kind == "error" then Append(v, "Error: " + message, None, ts)
      else if kind == "chat" then Append(v, message, username, ts)
      else if kind == "memberCount" then v.(memberCount := count)
      else Append(v, raw, None, ts)
  }

  /** How many messages an event appends: two for a "created successfully" success, none for `memberCount`. */
  function Appends(ev: Inbound): (n: nat)
    ensures n <= 2
  {
    match ev
    case Unparseable(_) => 1
    case Parsed(_, kind, message, _, _, _) =>
      if kind == "memberCount" then 0
      else if kind == "success" && !Includes(message, JoinedMarker) && Includes(message, CreatedMarker) then 2
      else 1
  }

  /** Every event keeps the old messages in place and in order and adds `Appends(ev)` new ones at the end. */
  lemma MessagesOnlyGrow(v: View, ev: Inbound, ts: string)
    ensures var w := Dispatch(v, ev, ts);
      |w.messages| == |v.messages| + Appends(ev) && v.messages <= w.messages
  {
  }

  /** The cells other than `messages` that an event leaves alone: all but the ones its branch sets. */
  predicate SameExceptMessages(v: View, w: View) {
    w.(messages := v.messages) == v
  }

  /**
   * A "Joined room" success with a pending room: the room becomes current, the
   * client is connected, the pending slot is cleared, and the member count is
   * taken from the frame only when the frame's count is truthy.
   */
  lemma JoinCompletes(v: View, raw: string, message: string, memberCount: Option<int>, count: int,
                      username: Option<string>, ts: string)
    requires Includes(message, JoinedMarker) && PendingRoom(v.attemptedRoom)
    ensures var w := Dispatch(v, Parsed(raw, "success", message, memberCount, count, username), ts);
      && w.messages == v.messages + [Message(message, None, ts)]
      && w.currentRoom == v.attemptedRoom.value
      && w.isConnected
      && w.attemptedRoom == None
      && w.roomCreated == v.roomCreated
      && (Truthy(memberCount) ==> w.memberCount == memberCount.value)
      && (!Truthy(memberCount) ==> w.memberCount == v.memberCount)
  {
  }

  /** A "Joined room" success with no pending room only logs the text. */
  lemma JoinWithoutPendingOnlyLogs(v: View, raw: string, message: string, memberCount: Option<int>,
                                   count: int, username: Option<string>, ts: string)
    requires Includes(message, JoinedMarker) && !PendingRoom(v.attemptedRoom)
    ensures Dispatch(v, Parsed(raw, "success", message, memberCount, count, username), ts)
         == v.(messages := v.messages + [Message(message, None, ts)])
  {
  }

  /**
   * "Joined room" is checked first: a success text holding both markers is treated as a
   * join and never sets `roomCreated`; one holding only "created successfully" sets it
   * and logs the server's text followed by the fixed notice.
   */
  lemma CreatedOnlyWithoutJoinedMarker(v: View, raw: string, message: string, memberCount: Option<int>,
                                       count: int, username: Option<string>, ts: string)
    ensures var w := Dispatch(v, Parsed(raw, "success", message, memberCount, count, username), ts);
      && (Includes(message, JoinedMarker) ==> w.roomCreated == v.roomCreated)
      && (!Includes(message, JoinedMarker) && Includes(message, CreatedMarker) ==>
            w == v.(roomCreated := true,
                    messages := v.messages + [Message(message, None, ts), Message(CreatedNotice, None, ts)]))
  {
  }

  /** An `error` frame logs "Error: " and the text, and changes nothing else. */
  lemma ErrorOnlyLogs(v: View, raw: string, message: string, memberCount: Option<int>, count: int,
                      username: Option<string>, ts: string)
    ensures var w := Dispatch(v, Parsed(raw, "error", message, memberCount, count, username), ts);
      SameExceptMessages(v, w) && w.messages == v.messages + [Message("Error: " + message, None, ts)]
  {
  }

  /** A `chat` frame logs the text under the sender's name and changes nothing else. */
  lemma ChatIsLogged(v: View, raw: string, message: string, memberCount: Option<int>, count: int,
                     username: Option<string>, ts: string)
    ensures var w := Dispatch(v, Parsed(raw, "chat", message, memberCount, count, username), ts);
      SameExceptMessages(v, w) && w.messages == v.messages + [Message(message, username, ts)]
  {
  }

  /** A `memberCount` frame sets the count, whatever its value, and logs nothing. */
  lemma MemberCountSet(v: View, raw: string, message: string, memberCount: Option<int>, count: int,
                       username: Option<string>, ts: string)
    ensures Dispatch(v, Parsed(raw, "memberCount", message, memberCount, count, username), ts)
         == v.(memberCount := count)
  {
  }

  /** An unknown type and an unparseable payload are handled alike: the raw text is logged. */
  lemma UnknownLogsRaw(v: View, ev: Inbound, ts: string)
    requires ev.Parsed? ==> ev.kind !in {"success", "error", "chat", "memberCount"}
    ensures var w := Dispatch(v, ev, ts);
      SameExceptMessages(v, w) && w.messages == v.messages + [Message(ev.raw, None, ts)]
  {
  }

  /**
   * Only a success frame can change `currentRoom`, `isConnected` or `attemptedRoom`,
   * and only a "Joined room" success with a pending room does.
   */
  lemma {:induction false} OnlyJoinConnects(v: View, ev: Inbound, ts: string)
    ensures var w := Dispatch(v, ev, ts);
      (w.currentRoom != v.currentRoom || w.isConnected != v.isConnected || w.attemptedRoom != v.attemptedRoom)
      ==> ev.Parsed? && ev.kind == "success" && Includes(ev.message, JoinedMarker) && PendingRoom(v.attemptedRoom)
  {
  }

  /** The hook's state cells and the `attemptedRoom` slot of session storage. */
  class Session {
    var messages: seq<Message>
    var isConnected: bool
    var currentRoom: string
    var roomCreated: bool
    var memberCount: int
    var attemptedRoom: Option<string>

    function Snapshot(): View
      reads this
    {
      View(messages, isConnected, currentRoom, roomCreated, memberCount, attemptedRoom)
    }

    /** The initial state of the cells; session storage keeps whatever it held before. */
    constructor (stored: Option<string>)
      ensures Snapshot() == View([], false, "", false, 0, stored)
    {
      messages := [];
      isConnected := false;
      currentRoom := "";
      roomCreated := false;
      memberCount := 0;
      attemptedRoom := stored;
    }

    /** Appends one message. */
    method Log(text: string, username: Option<string>, ts: string)
      modifies this
      ensures Snapshot() == Append(old(Snapshot()), text, username, ts)
    {
      messages := messages + [Message(text, username, ts)];
    }

    /** `ws.onmessage`: one event, applied as one step. */
    method OnMessage(ev: Inbound, ts: string)
      modifies this
      ensures Snapshot() == Dispatch(old(Snapshot()), ev, ts)
    {
      if ev.Unparseable? {
        Log(ev.raw, None, ts);
        return;
      }
      if ev.kind == "success" {
        Log(ev.message, None, ts);
        if Includes(ev.message, JoinedMarker) {
          var pending := attemptedRoom;
          if PendingRoom(pending) {
            currentRoom := pending.value;
            isConnected := true;
            if Truthy(ev.memberCount) {
              memberCount := ev.memberCount.value;
            }
            attemptedRoom := None;
          }
        } else if Includes(ev.message, CreatedMarker) {
          roomCreated := true;
          Log(CreatedNotice, None, ts);
        }
      } else if ev.kind == "error" {
        Log("Error: " + ev.message, None, ts);
      } else if ev.kind == "chat" {
        Log(ev.message, ev.username, ts);
      } else if ev.kind == "memberCount" {
        memberCount := ev.count;
      } else {
        Log(ev.raw, None, ts);
      }
    }

    /** `ws.onopen`: exactly one "Connected to server" message, nothing else. */
    method OnOpen(ts: string)
      modifies this
      ensures Snapshot() == Append(old(Snapshot()), ConnectedNotice, None, ts)
    {
      Log(ConnectedNotice, None, ts);
    }
  }
}
