/**
 * The chat page: the room id and user name the visitor typed, the message input,
 * the socket reference, and the guarded senders `createRoom`, `joinRoom` and
 * `sendMessage`. Its inbound handler is the same dispatch as the hook's and is
 * modelled once, by `WebSocketHook.Session`.
 */
module ChatApp {
  import opened Wrappers
  import opened JsPrimitives
  import opened WebSocketHook

  /** A frame the page sends, before `JSON.stringify`. */
  datatype Outbound =
    | CreateFrame(roomId: string)
    | JoinFrame(roomId: string)
    | ChatFrame(message: string, username: string)

  class App {
    /** The state cells shared with the inbound handler, and the session storage slot. */
    const session: Session
    var roomId: string
    var username: string
    /** `wsRef.current` is set. */
    var hasSocket: bool
    /** `inputRef.current` is set, that is, the message input is on screen. */
    var inputMounted: bool
    /** `inputRef.current.value`. */
    var input: string
    /** Every `wsRef.current.send(...)` so far, in order. */
    var sent: seq<Outbound>

    /** First render: `generatedId` stands for `generateRoomId()`, `stored` for what session storage holds. */
    constructor (generatedId: string, stored: Option<string>)
      ensures fresh(session)
      ensures session.Snapshot() == View([], false, "", false, 0, stored)
      ensures roomId == generatedId && username == "" && !hasSocket && !inputMounted && input == "" && sent == []
    {
      session := new Session(stored);
      roomId := generatedId;
      username := "";
      hasSocket := false;
      inputMounted := false;
      input := "";
      sent := [];
    }

    /** The effect's `wsRef.current = ws`. */
    method AttachSocket()
      modifies this
      ensures hasSocket
      ensures roomId == old(roomId) && username == old(username) && inputMounted == old(inputMounted)
      ensures input == old(input) && sent == old(sent)
    {
      hasSocket := true;
    }

    /**
     * A render: the message input exists only in the connected view, so `inputRef.current`
     * is set exactly while `isConnected` holds. A fresh input starts out empty.
     */
    method Render()
      modifies this
      ensures inputMounted == session.isConnected
      ensures input == if inputMounted != old(inputMounted) then "" else old(input)
      ensures roomId == old(roomId) && username == old(username) && hasSocket == old(hasSocket)
      ensures sent == old(sent)
    {
      if session.isConnected != inputMounted {
        input := "";
      }
      inputMounted := session.isConnected;
    }

    /** Sends `create` with the trimmed id, only for a non-blank id and an existing socket. */
    method CreateRoom()
      modifies this
      ensures sent == old(sent) + (if Trim(roomId) != "" && hasSocket then [CreateFrame(Trim(roomId))] else [])
      ensures roomId == old(roomId) && username == old(username) && hasSocket == old(hasSocket)
      ensures inputMounted == old(inputMounted) && input == old(input)
    {
      var id := Trim(roomId);
      if id != "" && hasSocket {
        sent := sent + [CreateFrame(id)];
      }
    }

    /** Installs a fresh suggested id (`newId` stands for `generateRoomId()`) and always clears `roomCreated`. */
    method HandleGenerateNewRoom(newId: string)
      modifies this, session
      ensures roomId == newId
      ensures session.Snapshot() == old(session.Snapshot()).(roomCreated := false)
      ensures username == old(username) && hasSocket == old(hasSocket) && inputMounted == old(inputMounted)
      ensures input == old(input) && sent == old(sent)
    {
      roomId := newId;
      session.roomCreated := false;
    }

    /**
     * Sends `join` only for a non-blank id and a non-blank name with a socket, and
     * records the same trimmed id as the room being attempted.
     */
    method JoinRoom()
      modifies this, session
      ensures var ok := Trim(roomId) != "" && Trim(username) != "" && hasSocket;
        sent == old(sent) + (if ok then [JoinFrame(Trim(roomId))] else [])
      ensures var ok := Trim(roomId) != "" && Trim(username) != "" && hasSocket;
        session.Snapshot() == if ok then old(session.Snapshot()).(attemptedRoom := Some(Trim(roomId)))
                              else old(session.Snapshot())
      ensures roomId == old(roomId) && username == old(username) && hasSocket == old(hasSocket)
      ensures inputMounted == old(inputMounted) && input == old(input)
    {
      var room, name := Trim(roomId), Trim(username);
      if room != "" && name != "" && hasSocket {
        sent := sent + [JoinFrame(room)];
        session.attemptedRoom := Some(room);
      }
    }

    /**
     * Sends the input's text untrimmed, with the current name, when the input and
     * the socket exist and the text is not blank; the input is then cleared.
     */
    method SendMessage()
      modifies this
      ensures var ok := inputMounted && hasSocket && Trim(old(input)) != "";
        && sent == old(sent) + (if ok then [ChatFrame(old(input), username)] else [])
        && input == (if ok then "" else old(input))
      ensures roomId == old(roomId) && username == old(username) && hasSocket == old(hasSocket)
      ensures inputMounted == old(inputMounted)
    {
      if !inputMounted || !hasSocket {
        return;
      }
      var message := input;
      if Trim(message) != "" {
        sent := sent + [ChatFrame(message, username)];
        input := "";
      }
    }

    /** The page's own `ws.onmessage`, the same dispatch as the hook's. */
    method OnMessage(ev: Inbound, ts: string)
      modifies session
      ensures session.Snapshot() == Dispatch(old(session.Snapshot()), ev, ts)
    {
      session.OnMessage(ev, ts);
    }

    /** The page's own `ws.onopen`: one "Connected to server" message. */
    method OnOpen(ts: string)
      modifies session
      ensures session.Snapshot()
           == old(session.Snapshot()).(messages := old(session.messages) + [Message(ConnectedNotice, None, ts)])
    {
      session.OnOpen(ts);
    }
  }
}
