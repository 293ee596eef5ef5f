/**
 * What the WebSocket session promises, stated on the step functions of
 * `ChatWebSocket`: who receives which frames, which transcripts gain which
 * lines, and what stays unchanged.
 */
module ChatWebSocketLemmas {
  import opened Wrappers
  import opened ChatModels
  import opened ChatState
  import opened ChatWebSocket

  /** Only the sender receives anything, and that is one error frame; no map changes but the outbox. */
  lemma ReplyOnly(w: World, c: ConnId, f: Frame)
    ensures var r := Reply(w, c, f);
      && FramesAdded(w, r, c, [f])
      && (forall d :: d != c ==> FramesAdded(w, r, d, []))
      && (forall v :: LinesAdded(w, r, v, []))
      && r.messages == w.messages && r.uploads == w.uploads
  {
  }

  /**
   * Joining registers `u` at `c`, replacing any earlier address for `u`;
   * every other registered connection gets one `user_connected` for `u`,
   * the joiner none.
   */
  lemma JoinNotifiesOthers(w: World, u: string, c: ConnId)
    requires Injective(w.connections) && OwnedBy(w.connections, u, c)
    ensures var r := JoinStep(w, u, c);
      && Injective(r.connections)
      && r.connections.Keys == w.connections.Keys + {u} && r.connections[u] == c
      && (forall v :: v in w.connections && v != u ==> r.connections[v] == w.connections[v])
      && (u in w.connections && w.connections[u] != c ==> w.connections[u] !in Registered(r.connections))
      && FramesAdded(w, r, c, [])
      && (forall d :: d in Registered(r.connections) && d != c ==> FramesAdded(w, r, d, [UserConnected(u)]))
      && (forall d :: d !in Registered(r.connections) ==> FramesAdded(w, r, d, []))
      && r.messages == w.messages
  {
    var r := JoinStep(w, u, c);
    var others := Addrs(r.connections, r.connections.Keys - {u});
    assert c !in others;
    forall d | d in Registered(r.connections) && d != c
      ensures FramesAdded(w, r, d, [UserConnected(u)])
    {
      var v :| v in r.connections && r.connections[v] == d;
      assert v != u;
      assert d in others;
    }
  }

  /**
   * Leaving removes `u` whichever address registered it (nothing when absent);
   * every connection still registered gets one `user_disconnected`.
   */
  lemma LeaveNotifiesRemaining(w: World, u: string)
    ensures var r := LeaveStep(w, u);
      && r.connections == w.connections - {u}
      && (u !in w.connections ==> r.connections == w.connections)
      && (forall d :: d in Registered(r.connections) ==> FramesAdded(w, r, d, [UserDisconnected(u)]))
      && (forall d :: d !in Registered(r.connections) ==> FramesAdded(w, r, d, []))
      && r.messages == w.messages
  {
  }

  /** Leaving twice leaves the registry as leaving once does. */
  lemma LeaveIdempotent(w: World, u: string)
    ensures LeaveStep(LeaveStep(w, u), u).connections == LeaveStep(w, u).connections
  {
  }

  /** A frame that does not parse, or whose type is neither "file" nor "message", earns the sender one error and changes nothing else. */
  lemma RejectedFrame(w: World, u: string, c: ConnId, frame: Incoming, fileId: string)
    requires frame.TextFrame?
    requires frame.parsed.Some? ==> frame.parsed.value.msgType !in {FileType, MessageType}
    ensures var r := DispatchStep(w, u, c, frame, fileId);
      && FramesAdded(w, r, c, [Error(if frame.parsed.None? then UnknownFormat else UnknownType)])
      && (forall d :: d != c ==> FramesAdded(w, r, d, []))
      && r.connections == w.connections && r.messages == w.messages && r.uploads == w.uploads
  {
    ReplyOnly(w, c, Error(if frame.parsed.None? then UnknownFormat else UnknownType));
  }

  /**
   * A public text message: every name in `users` (registered or not
   * connected alike) gains one line "<u>: <content>", and every registered
   * connection, the sender's included, receives the public frame once.
   */
  lemma PublicTextFanOut(w: World, u: string, c: ConnId, m: ClientMessage)
    requires m.recipient == PublicRecipient
    ensures var r := TextStep(w, u, c, m);
      && r.messages.Keys == w.messages.Keys + w.users.Keys
      && (forall v :: v in w.users ==> LinesAdded(w, r, v, [PublicLine(u, OrEmpty(m.content))]))
      && (forall v :: v !in w.users ==> LinesAdded(w, r, v, []))
      && (forall d :: d in Registered(w.connections) ==> FramesAdded(w, r, d, [Public(u, OrEmpty(m.content))]))
      && (forall d :: d !in Registered(w.connections) ==> FramesAdded(w, r, d, []))
      && (u in w.connections ==> FramesAdded(w, r, w.connections[u], [Public(u, OrEmpty(m.content))]))
  {
  }

  /** A private text message to oneself or to a name with no connection earns the sender one error; nothing else changes. */
  lemma PrivateTextRejected(w: World, u: string, c: ConnId, m: ClientMessage)
    requires m.recipient != PublicRecipient
    requires m.recipient == u || m.recipient !in w.connections
    ensures var r := TextStep(w, u, c, m);
      && FramesAdded(w, r, c, [Error(if m.recipient == u then SelfMessage else UserNotFound)])
      && (forall d :: d != c ==> FramesAdded(w, r, d, []))
      && r.messages == w.messages
  {
    ReplyOnly(w, c, Error(if m.recipient == u then SelfMessage else UserNotFound));
  }

  /**
   * A private text message to another connected user: the recipient gets the
   * frame prefixed with the sender, the sender the bare frame, the two
   * transcripts one line each, and nobody else anything.
   */
  lemma PrivateTextDelivered(w: World, u: string, c: ConnId, m: ClientMessage)
    requires m.recipient != PublicRecipient && m.recipient != u && m.recipient in w.connections
    requires OwnedBy(w.connections, u, c)
    ensures var r := TextStep(w, u, c, m);
      var to, content := m.recipient, OrEmpty(m.content);
      && FramesAdded(w, r, w.connections[to], [PrivateNotice(u, Private(u, content))])
      && FramesAdded(w, r, c, [Private(u, content)])
      && (forall d :: d != c && d != w.connections[to] ==> FramesAdded(w, r, d, []))
      && LinesAdded(w, r, u, [SentLine(to, content)])
      && LinesAdded(w, r, to, [ReceivedLine(u, content)])
      && (forall v :: v != u && v != to ==> LinesAdded(w, r, v, []))
  {
    assert w.connections[m.recipient] != c;
  }

  /** A file message without data earns one error and changes no state besides that frame. */
  lemma FileWithoutData(w: World, u: string, c: ConnId, m: ClientMessage, fileId: string)
    requires m.data.None?
    ensures var r := FileStep(w, u, c, m, fileId);
      && FramesAdded(w, r, c, [Error(NoFileSelected)])
      && (forall d :: d != c ==> FramesAdded(w, r, d, []))
      && r.messages == w.messages && r.uploads == w.uploads
  {
    ReplyOnly(w, c, Error(NoFileSelected));
  }

  /** A public file message stores the payload, sends its metadata to every registered connection once, and writes no transcript line. */
  lemma PublicFileBroadcast(w: World, u: string, c: ConnId, m: ClientMessage, fileId: string)
    requires m.data.Some? && m.recipient == PublicRecipient
    ensures var r := FileStep(w, u, c, m, fileId);
      && r.uploads == w.uploads[fileId := m.data.value]
      && r.messages == w.messages
      && (forall d :: d in Registered(w.connections) ==> FramesAdded(w, r, d, [FileMeta(u, fileId, OrEmpty(m.filename))]))
      && (forall d :: d !in Registered(w.connections) ==> FramesAdded(w, r, d, []))
  {
  }

  /**
   * A private file message to oneself or to a name with no connection earns
   * one error and no transcript line, yet the payload has been stored already.
   */
  lemma PrivateFileRejected(w: World, u: string, c: ConnId, m: ClientMessage, fileId: string)
    requires m.data.Some? && m.recipient != PublicRecipient
    requires m.recipient == u || m.recipient !in w.connections
    ensures var r := FileStep(w, u, c, m, fileId);
      && r.uploads == w.uploads[fileId := m.data.value]
      && FramesAdded(w, r, c, [Error(if m.recipient == u then SelfFile else UserNotFound)])
      && (forall d :: d != c ==> FramesAdded(w, r, d, []))
      && r.messages == w.messages
  {
    var stored := w.(uploads := w.uploads[fileId := m.data.value]);
    ReplyOnly(stored, c, Error(if m.recipient == u then SelfFile else UserNotFound));
  }

  /** A private file message to another connected user is delivered and recorded like private text. */
  lemma PrivateFileDelivered(w: World, u: string, c: ConnId, m: ClientMessage, fileId: string)
    requires m.data.Some? && m.recipient != PublicRecipient && m.recipient != u && m.recipient in w.connections
    requires OwnedBy(w.connections, u, c)
    ensures var r := FileStep(w, u, c, m, fileId);
      var to, meta := m.recipient, FileMeta(u, fileId, OrEmpty(m.filename));
      && r.uploads == w.uploads[fileId := m.data.value]
      && FramesAdded(w, r, w.connections[to], [PrivateNotice(u, meta)])
      && FramesAdded(w, r, c, [meta])
      && (forall d :: d != c && d != w.connections[to] ==> FramesAdded(w, r, d, []))
      && LinesAdded(w, r, u, [SentFileLine(to, OrEmpty(m.filename))])
      && LinesAdded(w, r, to, [ReceivedFileLine(u, OrEmpty(m.filename))])
      && (forall v :: v != u && v != to ==> LinesAdded(w, r, v, []))
  {
    assert w.connections[m.recipient] != c;
  }

  lemma PushAppendOnly(w: World, c: ConnId, f: Frame)
    ensures AppendOnly(w, w.(outbox := Push(w.outbox, c, f)))
  {
  }

  lemma PrivateAppendOnly(w: World, w': World, rc: ConnId, c: ConnId, x: Frame, y: Frame, u: string, to: string, l1: string, l2: string)
    requires w'.outbox == Push(Push(w.outbox, rc, x), c, y)
    requires w'.messages == Record(Record(w.messages, u, l1), to, l2)
    ensures AppendOnly(w, w')
  {
    forall d
      ensures Inbox(w.outbox, d) <= Inbox(w'.outbox, d)
    {
      assert Inbox(w.outbox, d) <= Inbox(Push(w.outbox, rc, x), d);
    }
    forall v
      ensures HistoryOf(w.messages, v) <= HistoryOf(w'.messages, v)
    {
      assert HistoryOf(w.messages, v) <= HistoryOf(Record(w.messages, u, l1), v);
    }
  }

  lemma TextAppendOnly(w: World, u: string, c: ConnId, m: ClientMessage)
    ensures AppendOnly(w, TextStep(w, u, c, m))
  {
    var content := OrEmpty(m.content);
    if m.recipient == PublicRecipient {
    } else if m.recipient == u {
      PushAppendOnly(w, c, Error(SelfMessage));
    } else if m.recipient in w.connections {
      var to := m.recipient;
      PrivateAppendOnly(w, TextStep(w, u, c, m), w.connections[to], c, Render(PrivateMessage(u, Private(u, content))),
        Private(u, content), u, to, SentLine(to, content), ReceivedLine(u, content));
    } else {
      PushAppendOnly(w, c, Error(UserNotFound));
    }
  }

  lemma FileAppendOnly(w: World, u: string, c: ConnId, m: ClientMessage, fileId: string)
    ensures AppendOnly(w, FileStep(w, u, c, m, fileId))
  {
    if m.data.None? {
      PushAppendOnly(w, c, Error(NoFileSelected));
    } else {
      var filename := OrEmpty(m.filename);
      var stored := w.(uploads := w.uploads[fileId := m.data.value]);
      var meta := FileMeta(u, fileId, filename);
      if m.recipient == PublicRecipient {
      } else if m.recipient == u {
        PushAppendOnly(stored, c, Error(SelfFile));
      } else if m.recipient in w.connections {
        var to := m.recipient;
        PrivateAppendOnly(w, FileStep(w, u, c, m, fileId), w.connections[to], c, Render(PrivateMessage(u, meta)),
          meta, u, to, SentFileLine(to, filename), ReceivedFileLine(u, filename));
      } else {
        PushAppendOnly(stored, c, Error(UserNotFound));
      }
    }
  }

  /** Outboxes and transcripts only ever grow: no step drops, rewrites or reorders a frame or a line. */
  lemma DispatchAppendOnly(w: World, u: string, c: ConnId, frame: Incoming, fileId: string)
    ensures AppendOnly(w, DispatchStep(w, u, c, frame, fileId))
  {
    match frame
    case TextFrame(None) => PushAppendOnly(w, c, Error(UnknownFormat));
    case TextFrame(Some(m)) =>
      if m.msgType == FileType {
        FileAppendOnly(w, u, c, m, fileId);
      } else if m.msgType == MessageType {
        TextAppendOnly(w, u, c, m);
      } else {
        PushAppendOnly(w, c, Error(UnknownType));
      }
    case _ =>
  }

  lemma JoinLeaveAppendOnly(w: World, u: string, c: ConnId)
    ensures AppendOnly(w, JoinStep(w, u, c)) && AppendOnly(w, LeaveStep(w, u))
  {
  }

  /** A session lifecycle event: `started` of `name` at `addr`, or `stopped` of `name`. */
  datatype Presence = Join(name: string, addr: ConnId) | Leave(name: string)

  function Lookup(conns: map<string, ConnId>, u: string): Option<ConnId>
  {
    if u in conns then Some(conns[u]) else None
  }

  /** Applies the events in order, oldest first. */
  function Replay(w: World, events: seq<Presence>): World
  {
    if events == [] then w
    else
      var w' := Replay(w, events[..|events| - 1]);
      match events[|events| - 1]
      case Join(v, a) => JoinStep(w', v, a)
      case Leave(v) => LeaveStep(w', v)
  }

  /** The address of `u`'s last event if that was a join, none if it was a leave, `before` if `u` had none. */
  function LastJoin(events: seq<Presence>, u: string, before: Option<ConnId>): Option<ConnId>
  {
    if events == [] then before
    else
      var e := events[|events| - 1];
      if e.name == u then (if e.Join? then Some(e.addr) else None)
      else LastJoin(events[..|events| - 1], u, before)
  }

  /**
   * After any sequence of joins and leaves, a name is registered exactly
   * when its last event was a join, and then at that join's address.
   */
  lemma {:induction false} RegistryAfterReplay(w: World, events: seq<Presence>, u: string)
    ensures Lookup(Replay(w, events).connections, u) == LastJoin(events, u, Lookup(w.connections, u))
    decreases |events|
  {
    if events != [] {
      RegistryAfterReplay(w, events[..|events| - 1], u);
    }
  }
}
