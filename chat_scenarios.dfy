/**
 * Two end-to-end scenarios, driven through the handlers and the session
 * methods.  Sessions are built directly with their username and address;
 * `login` and the token lookup of `websocket_handler` are skipped.
 */
module ChatScenarios {
  import opened Wrappers
  import opened ChatModels
  import opened ChatState
  import opened ChatWebSocket
  import opened ChatHandlers

  lemma HelloLine()
    ensures PublicLine("bob", "hi") == "bob: hi"
  {
    assert |PublicLine("bob", "hi")| == 7;
  }

  /** alice and bob sign up. */
  method SignedUp() returns (app: AppState)
    ensures fresh(app) && app.Valid()
    ensures app.users.Keys == {"alice", "bob"}
    ensures app.connections == map[] && app.messages == map[] && app.outbox == map[]
  {
    app := new AppState();
    var _ := Signup(app, User("alice", "pa"));
    var _ := Signup(app, User("bob", "pb"));
  }

  /** alice and bob sign up, then alice connects at address 1; nobody else is online to be told. */
  method AliceOnline() returns (app: AppState)
    ensures fresh(app) && app.Valid()
    ensures app.users.Keys == {"alice", "bob"}
    ensures app.connections == map["alice" := 1]
    ensures app.messages == map[]
    ensures Inbox(app.outbox, 1) == [] && Inbox(app.outbox, 2) == []
  {
    app := SignedUp();
    var alice := new ChatSession("alice", 1, app);
    assert OwnedBy(app.connections, "alice", 1);
    alice.Started();
    assert app.connections == map["alice" := 1];
    assert AddrsExcept(app.connections, {"alice"}) == {} by {
      assert app.connections.Keys - {"alice"} == {};
    }
    DeliverAllEffect(map[], {}, UserConnected("alice"));
  }

  /** Then bob connects at address 2, and alice is told. */
  method AliceThenBob() returns (app: AppState, bob: ChatSession)
    ensures fresh(app) && app.Valid()
    ensures bob.app == app && bob.username == "bob" && bob.conn == 2
    ensures app.users.Keys == {"alice", "bob"}
    ensures app.connections == map["alice" := 1, "bob" := 2]
    ensures app.messages == map[]
    ensures Inbox(app.outbox, 1) == [UserConnected("bob")] && Inbox(app.outbox, 2) == []
  {
    app := AliceOnline();
    ghost var outbox1 := app.outbox;
    bob := new ChatSession("bob", 2, app);
    assert OwnedBy(app.connections, "bob", 2);
    bob.Started();
    assert app.connections == map["alice" := 1, "bob" := 2];
    assert AddrsExcept(app.connections, {"bob"}) == {1} by {
      assert app.connections.Keys - {"bob"} == {"alice"};
    }
    DeliverAllEffect(outbox1, {1}, UserConnected("bob"));
  }

  /** Then bob says "hi" publicly: both transcripts and both connections receive it. */
  method PublicHello() returns (aliceHistory: seq<string>, bobHistory: seq<string>, aliceFrames: seq<Frame>, bobFrames: seq<Frame>)
    ensures aliceHistory == ["bob: hi"] && bobHistory == ["bob: hi"]
    ensures aliceFrames == [UserConnected("bob"), Public("bob", "hi")]
    ensures bobFrames == [Public("bob", "hi")]
  {
    var app, bob := AliceThenBob();
    assert Registered(app.connections) == {1, 2} by {
      assert app.connections["alice"] == 1 && app.connections["bob"] == 2;
      assert app.connections.Keys == {"alice", "bob"};
    }
    ghost var before := app.Snapshot();
    var hi := ClientMessage("message", "public", Some("hi"), None, None);
    bob.Handle(TextFrame(Some(hi)), "");
    assert app.Snapshot() == TextStep(before, "bob", 2, hi);
    HelloLine();
    assert app.messages == RecordAll(before.messages, {"alice", "bob"}, "bob: hi");
    assert app.outbox == DeliverAll(before.outbox, {1, 2}, Public("bob", "hi"));
    aliceHistory, bobHistory := HistoryOf(app.messages, "alice"), HistoryOf(app.messages, "bob");
    aliceFrames, bobFrames := Inbox(app.outbox, 1), Inbox(app.outbox, 2);
  }

  /** alice, alone online, writes privately to "carol", who has no connection. */
  method PrivateToAbsentUser() returns (aliceFrames: seq<Frame>, transcripts: Transcripts)
    ensures aliceFrames == [Error(UserNotFound)]
    ensures transcripts == map[]
  {
    var app := SignedUp();
    var alice := new ChatSession("alice", 1, app);
    assert OwnedBy(app.connections, "alice", 1);
    alice.Started();
    assert Addrs(app.connections, app.connections.Keys - {"alice"}) == {};
    alice.Handle(TextFrame(Some(ClientMessage("message", "carol", Some("hello"), None, None))), "");
    aliceFrames, transcripts := Inbox(app.outbox, 1), app.messages;
  }
}
