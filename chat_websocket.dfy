/**
 * The WebSocket session of the chat server (chat/src/websocket.rs): joining
 * and leaving with presence notices, frame dispatch, and the routing of text
 * and file messages.  Each actor callback is one atomic step over `AppState`;
 * `do_send` to a session is modelled as appending the frame that session's
 * handler would write, right away.  The `*Step` functions state each step on
 * a `World` value; `ChatSession`'s methods perform it in place.
 */
module ChatWebSocket {
  import opened Wrappers
  import opened ChatModels
  import opened ChatState

  /** Actor messages sent between sessions (websocket.rs:8-29). */
  datatype Mail =
    | Broadcast(frame: Frame)
    | PrivateMessage(from: string, content: Frame)
    | Connected(username: string)
    | Disconnected(username: string)

  /** The frame a session writes to its own socket on receiving `m` (websocket.rs:73-112). */
  function Render(m: Mail): Frame
  {
    match m
    case Broadcast(f) => f
    case PrivateMessage(from, content) => PrivateNotice(from, content)
    case Connected(u) => UserConnected(u)
    case Disconnected(u) => UserDisconnected(u)
  }

  /** An inbound WebSocket message; a text frame arrives already decoded, `None` when it did not parse. */
  datatype Incoming =
    | TextFrame(parsed: Option<ClientMessage>)
    | PingFrame
    | BinaryFrame
    | OtherFrame

  // Transcript lines (websocket.rs:165, 200, 202, 255, 257).
  function PublicLine(from: string, content: string): string { from + ": " + content }
  function SentLine(to: string, content: string): string { "До " + to + ": " + content }
  function ReceivedLine(from: string, content: string): string { "Від " + from + ": " + content }
  function SentFileLine(to: string, filename: string): string { "До " + to + ": Надіслав файл '" + filename + "'" }
  function ReceivedFileLine(from: string, filename: string): string { "Від " + from + ": Отримано файл '" + filename + "'" }

  /** Connection `c` kept every frame it had in `w` and received exactly `s` after them in `w'`. */
  predicate FramesAdded(w: World, w': World, c: ConnId, s: seq<Frame>)
  {
    Inbox(w'.outbox, c) == Inbox(w.outbox, c) + s
  }

  /** `u`'s transcript kept every line it had in `w` and gained exactly `s` after them in `w'`. */
  predicate LinesAdded(w: World, w': World, u: string, s: seq<string>)
  {
    HistoryOf(w'.messages, u) == HistoryOf(w.messages, u) + s
  }

  /** `w'` differs from `w` only by frames appended to outboxes and lines appended to transcripts. */
  ghost predicate AppendOnly(w: World, w': World)
  {
    && (forall c :: Inbox(w.outbox, c) <= Inbox(w'.outbox, c))
    && (forall u :: HistoryOf(w.messages, u) <= HistoryOf(w'.messages, u))
  }

  /** Frame `f` to the session's own connection `c` and nothing else. */
  function Reply(w: World, c: ConnId, f: Frame): World
  {
    w.(outbox := Push(w.outbox, c, f))
  }

  /** `started` (websocket.rs:39-55): register `u` at `c`, then notify everyone else. */
  function JoinStep(w: World, u: string, c: ConnId): (r: World)
    ensures r.connections == w.connections[u := c]
    ensures r.users == w.users && r.sessions == w.sessions
    ensures r.messages == w.messages && r.uploads == w.uploads
  {
    var conns := w.connections[u := c];
    w.(connections := conns,
       outbox := DeliverAll(w.outbox, AddrsExcept(conns, {u}), Render(Connected(u))))
  }

  /** `stopped` (websocket.rs:57-70): unregister `u`, then notify everyone still registered. */
  function LeaveStep(w: World, u: string): (r: World)
    ensures r.connections == w.connections - {u}
    ensures r.users == w.users && r.sessions == w.sessions
    ensures r.messages == w.messages && r.uploads == w.uploads
  {
    var conns := w.connections - {u};
    w.(connections := conns,
       outbox := DeliverAll(w.outbox, Registered(conns), Render(Disconnected(u))))
  }

  /** `handle_text_message` (websocket.rs:150-212) for the session of `u` at `c`. */
  function TextStep(w: World, u: string, c: ConnId, m: ClientMessage): (r: World)
    ensures r.users == w.users && r.sessions == w.sessions
    ensures r.connections == w.connections && r.uploads == w.uploads
  {
    var content := OrEmpty(m.content);
    if m.recipient == PublicRecipient then
      w.(messages := RecordAll(w.messages, w.users.Keys, PublicLine(u, content)),
         outbox := DeliverAll(w.outbox, Registered(w.connections), Render(Broadcast(Public(u, content)))))
    else if m.recipient == u then
      Reply(w, c, Error(SelfMessage))
    else if m.recipient in w.connections then
      var to := m.recipient;
      var frame := Private(u, content);
      w.(outbox := Push(Push(w.outbox, w.connections[to], Render(PrivateMessage(u, frame))), c, frame),
         messages := Record(Record(w.messages, u, SentLine(to, content)), to, ReceivedLine(u, content)))
    else
      Reply(w, c, Error(UserNotFound))
  }

  /**
   * `handle_file_message` (websocket.rs:214-274).  `fileId` stands for the
   * generated uuid; the payload is stored under it before the recipient is
   * examined.
   */
  function FileStep(w: World, u: string, c: ConnId, m: ClientMessage, fileId: string): (r: World)
    ensures r.users == w.users && r.sessions == w.sessions && r.connections == w.connections
  {
    match m.data
    case None => Reply(w, c, Error(NoFileSelected))
    case Some(data) =>
      var filename := OrEmpty(m.filename);
      var stored := w.(uploads := w.uploads[fileId := data]);
      var meta := FileMeta(u, fileId, filename);
      if m.recipient == PublicRecipient then
        stored.(outbox := DeliverAll(w.outbox, Registered(w.connections), Render(Broadcast(meta))))
      else if m.recipient == u then
        Reply(stored, c, Error(SelfFile))
      else if m.recipient in w.connections then
        var to := m.recipient;
        stored.(outbox := Push(Push(w.outbox, w.connections[to], Render(PrivateMessage(u, meta))), c, meta),
                messages := Record(Record(w.messages, u, SentFileLine(to, filename)), to, ReceivedFileLine(u, filename)))
      else
        Reply(stored, c, Error(UserNotFound))
  }

  /** The `StreamHandler::handle` dispatch (websocket.rs:115-146). */
  function DispatchStep(w: World, u: string, c: ConnId, frame: Incoming, fileId: string): (r: World)
    ensures r.users == w.users && r.sessions == w.sessions && r.connections == w.connections
  {
    match frame
    case TextFrame(None) => Reply(w, c, Error(UnknownFormat))
    case TextFrame(Some(m)) =>
      if m.msgType == FileType then FileStep(w, u, c, m, fileId)
      else if m.msgType == MessageType then TextStep(w, u, c, m)
      else Reply(w, c, Error(UnknownType))
    case _ => w
  }

  /** One `ChatSession` actor: the session of `username`, whose own socket is `conn`. */
  class ChatSession {
    const username: string
    const conn: ConnId
    const app: AppState

    constructor (username: string, conn: ConnId, app: AppState)
      ensures this.username == username && this.conn == conn && this.app == app
    {
      this.username, this.conn, this.app := username, conn, app;
    }

    /** `started`: the registry keeps one address per name, and `conn` is no other name's. */
    method Started()
      requires app.Valid()
      requires OwnedBy(app.connections, username, conn)
      modifies app`connections, app`outbox
      ensures app.Valid()
      ensures app.Snapshot() == JoinStep(old(app.Snapshot()), username, conn)
    {
      app.connections := app.connections[username := conn];
      app.SendEach(Render(Connected(username)), {username});
    }

    /** `stopped`: removes the name whichever session registered it. */
    method Stopped()
      requires app.Valid()
      modifies app`connections, app`outbox
      ensures app.Valid()
      ensures app.Snapshot() == LeaveStep(old(app.Snapshot()), username)
    {
      app.connections := app.connections - {username};
      app.SendEach(Render(Disconnected(username)), {});
    }

    /** `StreamHandler::handle`; `fileId` is used only when a file is stored. */
    method Handle(frame: Incoming, fileId: string)
      requires app.Valid()
      modifies app`messages, app`outbox, app`uploads
      ensures app.Valid()
      ensures app.Snapshot() == DispatchStep(old(app.Snapshot()), username, conn, frame, fileId)
    {
      match frame
      case TextFrame(None) =>
        app.outbox := Push(app.outbox, conn, Error(UnknownFormat));
      case TextFrame(Some(m)) =>
        if m.msgType == FileType {
          HandleFileMessage(m, fileId);
        } else if m.msgType == MessageType {
          HandleTextMessage(m);
        } else {
          app.outbox := Push(app.outbox, conn, Error(UnknownType));
        }
      case _ =>
    }

    /**
     * The private branch shared by text and file messages: the recipient's
     * session gets `frame` as a `PrivateMessage`, the sender the bare `frame`,
     * and both transcripts one line (websocket.rs:186-203, 247-258).
     */
    method SendPrivate(to: string, frame: Frame, sentLine: string, receivedLine: string)
      requires app.Valid() && to in app.connections
      modifies app`messages, app`outbox
      ensures app.Valid()
      ensures app.outbox == Push(Push(old(app.outbox), app.connections[to], Render(PrivateMessage(username, frame))), conn, frame)
      ensures app.messages == Record(Record(old(app.messages), username, sentLine), to, receivedLine)
    {
      var addr := app.connections[to];
      app.outbox := Push(app.outbox, addr, Render(PrivateMessage(username, frame)));
      app.outbox := Push(app.outbox, conn, frame);
      app.messages := Record(app.messages, username, sentLine);
      app.messages := Record(app.messages, to, receivedLine);
    }

    method HandleTextMessage(m: ClientMessage)
      requires app.Valid()
      modifies app`messages, app`outbox
      ensures app.Valid()
      ensures app.Snapshot() == TextStep(old(app.Snapshot()), username, conn, m)
    {
      ghost var w := app.Snapshot();
      var recipient := m.recipient;
      var content := OrEmpty(m.content);
      if recipient == PublicRecipient {
        app.RecordEach(PublicLine(username, content));
        app.SendEach(Render(Broadcast(Public(username, content))), {});
        assert app.Snapshot() == w.(messages := app.messages, outbox := app.outbox);
      } else {
        if recipient == username {
          app.outbox := Push(app.outbox, conn, Error(SelfMessage));
          assert app.Snapshot() == Reply(w, conn, Error(SelfMessage));
          return;
        }
        if recipient in app.connections {
          SendPrivate(recipient, Private(username, content), SentLine(recipient, content), ReceivedLine(username, content));
          assert app.Snapshot() == w.(messages := app.messages, outbox := app.outbox);
        } else {
          app.outbox := Push(app.outbox, conn, Error(UserNotFound));
          assert app.Snapshot() == Reply(w, conn, Error(UserNotFound));
        }
      }
    }

    method HandleFileMessage(m: ClientMessage, fileId: string)
      requires app.Valid()
      modifies app`messages, app`outbox, app`uploads
      ensures app.Valid()
      ensures app.Snapshot() == FileStep(old(app.Snapshot()), username, conn, m, fileId)
    {
      ghost var w := app.Snapshot();
      if m.data.Some? {
        var recipient := m.recipient;
        var filename := OrEmpty(m.filename);
        app.uploads := app.uploads[fileId := m.data.value];
        ghost var stored := app.Snapshot();
        var meta := FileMeta(username, fileId, filename);
        if recipient == PublicRecipient {
          app.SendEach(Render(Broadcast(meta)), {});
          assert app.Snapshot() == stored.(outbox := app.outbox);
        } else {
          if recipient == username {
            app.outbox := Push(app.outbox, conn, Error(SelfFile));
            assert app.Snapshot() == Reply(stored, conn, Error(SelfFile));
            return;
          }
          if recipient in app.connections {
            SendPrivate(recipient, meta, SentFileLine(recipient, filename), ReceivedFileLine(username, filename));
            assert app.Snapshot() == stored.(messages := app.messages, outbox := app.outbox);
          } else {
            app.outbox := Push(app.outbox, conn, Error(UserNotFound));
            assert app.Snapshot() == Reply(stored, conn, Error(UserNotFound));
          }
        }
      } else {
        app.outbox := Push(app.outbox, conn, Error(NoFileSelected));
        assert app.Snapshot() == Reply(w, conn, Error(NoFileSelected));
      }
    }
  }
}
