/**
 * The server's shared state (`AppState`, chat/src/main.rs:16-21) and the
 * two primitive effects every handler is built from: appending a line to a
 * user's transcript (`messages.entry(u).or_insert(..).push(..)`) and
 * appending a frame to a connection's outbox (`do_send` / `ctx.text`).
 */
module ChatState {
  import opened ChatModels

  /** Frames written to each connection so far, oldest first. */
  type Outboxes = map<ConnId, seq<Frame>>
  /** Transcript lines per username, in append order. */
  type Transcripts = map<string, seq<string>>

  /** A value snapshot of everything the handlers read or write. */
  datatype World = World(
    users: map<string, User>,
    sessions: map<string, string>,
    connections: map<string, ConnId>,
    messages: Transcripts,
    outbox: Outboxes,
    uploads: map<string, seq<byte>>)

  /** The transcript of `u`; empty when none was ever created. */
  function HistoryOf(msgs: Transcripts, u: string): seq<string>
  {
    if u in msgs then msgs[u] else []
  }

  /** The frames written to connection `c`; empty when none were. */
  function Inbox(ob: Outboxes, c: ConnId): seq<Frame>
  {
    if c in ob then ob[c] else []
  }

  /** `messages.entry(u).or_insert(Vec::new()).push(line)` */
  function Record(msgs: Transcripts, u: string, line: string): Transcripts
  {
    msgs[u := HistoryOf(msgs, u) + [line]]
  }

  /** One `Record(.., v, line)` for every `v` in `names`. */
  function RecordAll(msgs: Transcripts, names: set<string>, line: string): Transcripts
  {
    map v | v in msgs.Keys + names :: HistoryOf(msgs, v) + (if v in names then [line] else [])
  }

  /** Writing one frame `f` to connection `c`. */
  function Push(ob: Outboxes, c: ConnId, f: Frame): Outboxes
  {
    ob[c := Inbox(ob, c) + [f]]
  }

  /** Writing `f` once to every connection in `targets`. */
  function DeliverAll(ob: Outboxes, targets: set<ConnId>, f: Frame): Outboxes
  {
    map d | d in ob.Keys + targets :: Inbox(ob, d) + (if d in targets then [f] else [])
  }

  /** Recording gives `u` one more line, last, and leaves every other transcript as it was. */
  lemma RecordEffect(msgs: Transcripts, u: string, line: string)
    ensures Record(msgs, u, line).Keys == msgs.Keys + {u}
    ensures HistoryOf(Record(msgs, u, line), u) == HistoryOf(msgs, u) + [line]
    ensures forall v :: v != u ==> HistoryOf(Record(msgs, u, line), v) == HistoryOf(msgs, v)
  {
  }

  /** Recording for a set of names gives each of them one more line, and nobody else any. */
  lemma RecordAllEffect(msgs: Transcripts, names: set<string>, line: string)
    ensures RecordAll(msgs, names, line).Keys == msgs.Keys + names
    ensures forall v :: v in names ==> HistoryOf(RecordAll(msgs, names, line), v) == HistoryOf(msgs, v) + [line]
    ensures forall v :: v !in names ==> HistoryOf(RecordAll(msgs, names, line), v) == HistoryOf(msgs, v)
  {
  }

  /** Pushing gives `c` one more frame, last, and leaves every other outbox as it was. */
  lemma PushEffect(ob: Outboxes, c: ConnId, f: Frame)
    ensures Push(ob, c, f).Keys == ob.Keys + {c}
    ensures Inbox(Push(ob, c, f), c) == Inbox(ob, c) + [f]
    ensures forall d :: d != c ==> Inbox(Push(ob, c, f), d) == Inbox(ob, d)
  {
  }

  /** Delivering gives each target exactly one more frame, last, and every other connection none. */
  lemma DeliverAllEffect(ob: Outboxes, targets: set<ConnId>, f: Frame)
    ensures DeliverAll(ob, targets, f).Keys == ob.Keys + targets
    ensures forall d :: d in targets ==> Inbox(DeliverAll(ob, targets, f), d) == Inbox(ob, d) + [f]
    ensures forall d :: d !in targets ==> Inbox(DeliverAll(ob, targets, f), d) == Inbox(ob, d)
  {
  }

  lemma DeliverAllNone(ob: Outboxes, f: Frame)
    ensures DeliverAll(ob, {}, f) == ob
  {
    DeliverAllEffect(ob, {}, f);
    assert forall d :: d in ob ==> ob[d] == Inbox(ob, d);
  }

  lemma RecordAllNone(msgs: Transcripts, line: string)
    ensures RecordAll(msgs, {}, line) == msgs
  {
    RecordAllEffect(msgs, {}, line);
    assert forall v :: v in msgs ==> msgs[v] == HistoryOf(msgs, v);
  }

  /** The addresses registered under the names in `names`. */
  function Addrs(conns: map<string, ConnId>, names: set<string>): set<ConnId>
  {
    set u | u in names && u in conns :: conns[u]
  }

  /** The addresses registered under any name outside `skip`. */
  function AddrsExcept(conns: map<string, ConnId>, skip: set<string>): set<ConnId>
  {
    Addrs(conns, conns.Keys - skip)
  }

  /** The addresses of every registered connection (`connections.values()`). */
  function Registered(conns: map<string, ConnId>): set<ConnId>
  {
    AddrsExcept(conns, {})
  }

  /** Address `c` is registered under no name other than `u`: the session of `u` owns it. */
  predicate OwnedBy(conns: map<string, ConnId>, u: string, c: ConnId)
  {
    forall v :: v in conns && conns[v] == c ==> v == u
  }

  /** No address is registered under two names: each session has one username. */
  predicate Injective(conns: map<string, ConnId>)
  {
    forall u, v :: u in conns && v in conns && conns[u] == conns[v] ==> u == v
  }

  /** `signup` stores every account under its own username. */
  predicate KeyedByName(users: map<string, User>)
  {
    forall k :: k in users ==> users[k].username == k
  }

  /** `login` only opens sessions for existing accounts, and accounts are never removed. */
  predicate SessionsOfUsers(sessions: map<string, string>, users: map<string, User>)
  {
    forall t :: t in sessions ==> sessions[t] in users
  }

  /** The invariant every handler keeps. */
  predicate Consistent(w: World)
  {
    Injective(w.connections) && KeyedByName(w.users) && SessionsOfUsers(w.sessions, w.users)
  }

  /** Pushing to an address not yet delivered to extends the delivered set by it. */
  lemma DeliverAllStep(ob0: Outboxes, targets: set<ConnId>, c: ConnId, f: Frame)
    requires c !in targets
    ensures Push(DeliverAll(ob0, targets, f), c, f) == DeliverAll(ob0, targets + {c}, f)
  {
    var lhs := Push(DeliverAll(ob0, targets, f), c, f);
    var rhs := DeliverAll(ob0, targets + {c}, f);
    DeliverAllEffect(ob0, targets, f);
    DeliverAllEffect(ob0, targets + {c}, f);
    PushEffect(DeliverAll(ob0, targets, f), c, f);
    forall d | d in lhs.Keys
      ensures lhs[d] == rhs[d]
    {
      assert lhs[d] == Inbox(lhs, d);
      assert rhs[d] == Inbox(rhs, d);
    }
  }

  /** Recording for one more name extends the recorded set by it. */
  lemma RecordAllStep(m0: Transcripts, names: set<string>, u: string, line: string)
    requires u !in names
    ensures Record(RecordAll(m0, names, line), u, line) == RecordAll(m0, names + {u}, line)
  {
    var lhs := Record(RecordAll(m0, names, line), u, line);
    var rhs := RecordAll(m0, names + {u}, line);
    RecordAllEffect(m0, names, line);
    RecordAllEffect(m0, names + {u}, line);
    RecordEffect(RecordAll(m0, names, line), u, line);
    forall v | v in lhs.Keys
      ensures lhs[v] == rhs[v]
    {
      assert lhs[v] == HistoryOf(lhs, v);
      assert rhs[v] == HistoryOf(rhs, v);
    }
  }

  /** The shared maps of chat/src/main.rs:16-21, plus each connection's outbox and the uploads directory. */
  class AppState {
    var users: map<string, User>
    var sessions: map<string, string>
    var connections: map<string, ConnId>
    var messages: Transcripts
    var outbox: Outboxes
    var uploads: map<string, seq<byte>>

    /** chat/src/main.rs:25-30: every map starts empty. */
    constructor ()
      ensures Snapshot() == World(map[], map[], map[], map[], map[], map[])
      ensures Valid()
    {
      users, sessions, connections := map[], map[], map[];
      messages, outbox, uploads := map[], map[], map[];
    }

    function Snapshot(): World
      reads this
    {
      World(users, sessions, connections, messages, outbox, uploads)
    }

    predicate Valid()
      reads this
    {
      Consistent(Snapshot())
    }

    /**
     * `for (_user, addr) in connections.iter() { if user not in skip { addr.do_send(..) } }`:
     * every connection registered under a name outside `skip` receives `f` once.
     */
    method SendEach(f: Frame, skip: set<string>)
      requires Valid()
      modifies this`outbox
      ensures outbox == DeliverAll(old(outbox), AddrsExcept(connections, skip), f)
    {
      var pending := connections.Keys - skip;
      ghost var done: set<string> := {};
      DeliverAllNone(outbox, f);
      while pending != {}
        invariant pending !! done && pending + done == connections.Keys - skip
        invariant outbox == DeliverAll(old(outbox), Addrs(connections, done), f)
        decreases pending
      {
        var u :| u in pending;
        var c := connections[u];
        assert c !in Addrs(connections, done);
        DeliverAllStep(old(outbox), Addrs(connections, done), c, f);
        outbox := Push(outbox, c, f);
        assert Addrs(connections, done + {u}) == Addrs(connections, done) + {c};
        pending, done := pending - {u}, done + {u};
      }
    }

    /** `for user in users.keys() { messages.entry(user).or_insert(..).push(line) }` */
    method RecordEach(line: string)
      modifies this`messages
      ensures messages == RecordAll(old(messages), users.Keys, line)
    {
      var pending := users.Keys;
      ghost var done: set<string> := {};
      RecordAllNone(messages, line);
      while pending != {}
        invariant pending !! done && pending + done == users.Keys
        invariant messages == RecordAll(old(messages), done, line)
        decreases pending
      {
        var u :| u in pending;
        RecordAllStep(old(messages), done, u, line);
        messages := Record(messages, u, line);
        pending, done := pending - {u}, done + {u};
      }
    }
  }
}
