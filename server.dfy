/** The chat server: the three module-level structures and the handlers that update them. */
module ChatServer {
  import opened Outcomes
  import opened Text
  import opened Bindings
  import opened Events
  import opened History
  import opened Routing
  import opened Session
  import opened Engine

  /** `USERS`, `connected` and `chat`, owned by one object. Each handler runs
      atomically and returns the batches it sends. */
  class Server {
    var users: set<Conn>
    var connected: Table
    var chat: seq<Entry>

    /** The three structures as one value. */
    function Snapshot(): World
      reads this
    {
      World(users, connected, chat)
    }

    /** `connected` is a dictionary whose names are never shared. */
    ghost predicate Valid()
      reads this
    {
      WellFormed(Snapshot())
    }

    constructor ()
      ensures Valid() && users == {} && connected == [] && chat == []
    {
      users, connected, chat := {}, [], [];
    }

    /** `notify_state()`: the state event to every live connection. */
    function NotifyState(): (sends: seq<Send>)
      reads this
      ensures NoEmptyBatch(sends)
      ensures forall c :: Deliveries(sends, c) == if c in users then [State(StateValue)] else []
    {
      Broadcast(users, StateEvent())
    }

    /** `notify_users()`: the number of live connections to every live connection. */
    function NotifyUsers(): (sends: seq<Send>)
      reads this
      ensures NoEmptyBatch(sends)
      ensures forall c :: Deliveries(sends, c) == if c in users then [UserCount(|users|)] else []
    {
      Broadcast(users, UsersEvent(users))
    }

    /** `show_users()`: the bound names, in `connected` order, to every live
        connection, named or not; nothing at all when no connection is live. */
    function ShowUsers(): (sends: seq<Send>)
      reads this
      ensures NoEmptyBatch(sends)
      ensures sends == [] <==> users == {}
      ensures forall c :: Deliveries(sends, c) ==
                          if c in users then [Users(Join(Values(connected), ", "))] else []
    {
      UserList(Snapshot())
    }

    /** `register(websocket)`: add to `USERS`, then show the user list. */
    method Register(ws: Conn) returns (sends: seq<Send>)
      requires Valid()
      modifies this
      ensures Valid()
      ensures users == old(users) + {ws} && connected == old(connected) && chat == old(chat)
      ensures sends == ShowUsers()
    {
      users := users + {ws};
      sends := ShowUsers();
    }

    /** `unregister(websocket)`: remove from `USERS` only; the binding stays.
        `USERS.remove` of an unknown connection is a KeyError. */
    method Unregister(ws: Conn) returns (r: Result<seq<Send>>)
      requires Valid()
      modifies this
      ensures Valid()
      ensures connected == old(connected) && chat == old(chat)
      ensures ws in old(users) ==> users == old(users) - {ws} && r == Ok(ShowUsers())
      ensures ws !in old(users) ==> users == old(users) && r == Err(NotRegistered)
    {
      if ws !in users {
        return Err(NotRegistered);
      }
      users := users - {ws};
      r := Ok(ShowUsers());
    }

    /** `add_user(websocket, name)`: find the first holder of `name`, unbind it,
        bind `ws` to `name`, then show the user list. */
    method AddUser(ws: Conn, name: Name) returns (sends: seq<Send>)
      requires Valid()
      modifies this
      ensures Valid()
      ensures connected == Rebind(old(connected), ws, name)
      ensures Holders(connected, name) == {ws}
      ensures users == old(users) && chat == old(chat)
      ensures sends == ShowUsers()
    {
      ghost var before := connected;
      var found := false;
      var holder := ws;
      if |connected| > 0 {
        for i := 0 to |connected|
          invariant !found
          invariant FirstHolder(connected, name) == FirstHolder(connected[i..], name)
        {
          holder := connected[i].conn;
          if connected[i].name == name {
            found := true;
            break;
          }
          assert connected[i..] == [connected[i]] + connected[i + 1..];
        }
      }
      assert found <==> FirstHolder(connected, name) == Some(holder);
      if found {
        connected := Delete(connected, holder);
      }
      connected := Put(connected, ws, name);
      RebindUnique(before, ws, name);
      sends := ShowUsers();
    }

    /** `remove_user(websocket)`: unbind `ws`, then show the user list;
        `del` of an unbound connection is a KeyError. */
    method RemoveUser(ws: Conn) returns (r: Result<seq<Send>>)
      requires Valid()
      modifies this
      ensures Valid()
      ensures users == old(users) && chat == old(chat)
      ensures ws in Keys(old(connected)) ==>
                connected == Delete(old(connected), ws) && ws !in Keys(connected) && r == Ok(ShowUsers())
      ensures ws !in Keys(old(connected)) ==> connected == old(connected) && r == Err(NotBound)
    {
      if ws !in Keys(connected) {
        return Err(NotBound);
      }
      DeleteUnbinds(connected, ws);
      connected := Delete(connected, ws);
      r := Ok(ShowUsers());
    }

    /** `message_to(user_in, user_to, msg)`: log the message, then, for each
        connection bound to `user_to`, send it to everyone bound to either name. */
    method MessageTo(tm: string, userIn: Name, userTo: Name, msg: string) returns (sends: seq<Send>)
      requires Valid()
      modifies this
      ensures Valid()
      ensures chat == old(chat) + [Entry(tm, userIn, userTo, msg)]
      ensures users == old(users) && connected == old(connected)
      ensures sends == MessageSends(connected, userIn, userTo, msg)
    {
      chat := chat + [Entry(tm, userIn, userTo, msg)];
      assert Snapshot().connected == old(connected);
      var table := connected;
      var event := Chat(userIn, userTo, msg);
      ghost var batch := Send(Holders(table, userTo) + Holders(table, userIn), event);
      sends := [];
      for i := 0 to |table|
        invariant sends + FanOut(table[i..], userTo, batch) == MessageSends(table, userIn, userTo, msg)
      {
        assert table[i..] == [table[i]] + table[i + 1..];
        if table[i].name == userTo {
          var recipients := Holders(table, userTo) + Holders(table, userIn);
          sends := sends + [Send(recipients, event)];
        }
      }
    }

    /** `replay_chat(user_in, user_to)`: every logged message between the two
        names, in log order, to the connections bound to `user_in`. */
    method ReplayChat(userIn: Name, userTo: Name) returns (r: Result<seq<Send>>)
      ensures r == ReplayBatches(chat, Holders(connected, userIn), userIn, userTo)
    {
      var sends: seq<Send> := [];
      for i := 0 to |chat|
        invariant ReplayBatches(chat[..i], Holders(connected, userIn), userIn, userTo) == Ok(sends)
      {
        var e := chat[i];
        assert chat[..i + 1][..i] == chat[..i];
        if (userIn == e.userIn && userTo == e.userTo) || (userIn == e.userTo && userTo == e.userIn) {
          var recipients := Holders(connected, userIn);
          if recipients == {} {
            ReplayShape(chat, recipients, userIn, userTo);
            assert e in Conversation(chat, userIn, userTo);
            return Err(EmptyWait);
          }
          sends := sends + [Send(recipients, Chat(e.userIn, e.userTo, e.msg))];
        }
      }
      assert chat[..|chat|] == chat;
      r := Ok(sends);
    }

    /** The return value of `show_chat(user_in)`: one `tm;from;to;msg` line per
        log entry, unfiltered, in log order (`user_in` only selects what is printed). */
    method ShowChat(userIn: Name) returns (lines: seq<string>)
      ensures |lines| == |chat|
      ensures forall k :: 0 <= k < |chat| ==> lines[k] == EntryLine(chat[k])
    {
      lines := [];
      for i := 0 to |chat|
        invariant |lines| == i
        invariant forall k :: 0 <= k < i ==> lines[k] == EntryLine(chat[k])
      {
        var e := chat[i];
        lines := lines + [Join([e.tm, e.userIn, e.userTo, e.msg], ";")];
      }
    }

    /** The branches of the dispatch in `producer`, each calling exactly its handler. */
    method Perform(ws: Conn, clock: string, a: Action) returns (r: Result<seq<Send>>)
      requires Valid()
      modifies this
      ensures Valid()
      ensures (Snapshot(), r) == Apply(old(Snapshot()), ws, clock, a)
    {
      match a
      case Skip =>
        r := Ok([]);
      case Other(_) =>
        r := Ok([]);
      case Connect(name) =>
        var sends := AddUser(ws, name);
        r := Ok(sends);
      case Disconnect =>
        r := RemoveUser(ws);
      case MessageTo(name, userTo, message) =>
        var sends := MessageTo(clock, name, userTo, message);
        r := Ok(sends);
      case Replay(name, userTo) =>
        r := ReplayChat(name, userTo);
    }

    /** One pass of the `async for` in `producer`: decode the frame, then dispatch. */
    method Handle(ws: Conn, frame: Frame) returns (r: Result<seq<Send>>)
      requires Valid()
      modifies this
      ensures Valid()
      ensures users == old(users) && old(chat) <= chat
      ensures (Snapshot(), r) == Step(old(Snapshot()), ws, frame)
    {
      match Decode(frame.body)
      case Err(f) =>
        r := Err(f);
      case Ok(a) =>
        r := Perform(ws, frame.clock, a);
    }

    /** The opening of `producer`: register, then the welcome state event to `ws` alone. */
    method Open(ws: Conn) returns (sends: seq<Send>)
      requires Valid()
      modifies this
      ensures Valid()
      ensures users == old(users) + {ws} && connected == old(connected) && chat == old(chat)
      ensures sends == ShowUsers() + [Send({ws}, StateEvent())]
    {
      sends := Register(ws);
      sends := sends + [Send({ws}, StateEvent())];
    }

    /** The `async for` of `producer`: handle the frames in order until one raises. */
    method Serve(ws: Conn, inbox: seq<Frame>) returns (sends: seq<Send>, handled: nat, fault: Option<Fault>)
      requires Valid()
      modifies this
      ensures Valid()
      ensures users == old(users)
      ensures Outcome(Snapshot(), sends, handled, fault) == Run(old(Snapshot()), ws, inbox)
    {
      ghost var whole := Run(Snapshot(), ws, inbox);
      sends, handled, fault := [], 0, None;
      while handled < |inbox|
        invariant Valid()
        invariant users == old(users)
        invariant handled <= |inbox| && fault == None
        invariant whole == Then(sends, handled, Run(Snapshot(), ws, inbox[handled..]))
        decreases |inbox| - handled
      {
        ghost var before := Snapshot();
        assert inbox[handled..][1..] == inbox[handled + 1..];
        RunFirst(before, ws, inbox[handled..]);
        var r := Handle(ws, inbox[handled]);
        if r.Err? {
          fault := Some(r.fault);
          assert sends + [] == sends;
          break;
        }
        ThenThen(sends, handled, r.value, 1, Run(Snapshot(), ws, inbox[handled + 1..]));
        sends := sends + r.value;
        handled := handled + 1;
      }
      if fault == None {
        assert sends + [] == sends;
      }
    }

    /** `producer(websocket, path)` for one session run on its own: open, handle
        the frames in order until one raises, then unregister in the `finally`. */
    method Producer(ws: Conn, inbox: seq<Frame>) returns (sends: seq<Send>, handled: nat, fault: Option<Fault>)
      requires Valid()
      modifies this
      ensures Valid()
      ensures Outcome(Snapshot(), sends, handled, fault) == Lifecycle(old(Snapshot()), ws, inbox)
      ensures users == old(users) - {ws}
      ensures chat == old(chat) + Logged(inbox[..handled])
      ensures handled <= |inbox| && (fault.None? <==> handled == |inbox|)
      ensures Opening(old(Snapshot()), ws) <= sends
      ensures |ShowUsers()| <= |sends| && sends[|sends| - |ShowUsers()|..] == ShowUsers()
    {
      ghost var start := Snapshot();
      var opening := Open(ws);
      assert Snapshot() == start.(users := start.users + {ws});
      var served;
      served, handled, fault := Serve(ws, inbox);
      var closing := Unregister(ws);
      sends := opening + served + closing.value;
      LifecycleState(start, ws, inbox);
      LifecycleSends(start, ws, inbox);
    }
  }

  /** The bindings of the scenario below. */
  lemma AliceAndBobTable()
    ensures Rebind([], Conn(1), "alice") == [Binding(Conn(1), "alice")]
    ensures Rebind([Binding(Conn(1), "alice")], Conn(2), "bob") ==
            [Binding(Conn(1), "alice"), Binding(Conn(2), "bob")]
    ensures Holders([Binding(Conn(1), "alice"), Binding(Conn(2), "bob")], "bob") == {Conn(2)}
    ensures Holders([Binding(Conn(1), "alice"), Binding(Conn(2), "bob")], "alice") == {Conn(1)}
  {
  }

  /** What alice's message and replay send in the scenario below. */
  lemma AliceAndBobSends()
    ensures MessageSends([Binding(Conn(1), "alice"), Binding(Conn(2), "bob")], "alice", "bob", "hello") ==
            [Send({Conn(1), Conn(2)}, Chat("alice", "bob", "hello"))]
    ensures ReplayBatches([Entry("t3", "alice", "bob", "hello")], {Conn(1)}, "alice", "bob") ==
            Ok([Send({Conn(1)}, Chat("alice", "bob", "hello"))])
  {
    var table := [Binding(Conn(1), "alice"), Binding(Conn(2), "bob")];
    AliceAndBobTable();
    MessageOnline(table, "alice", "bob", "hello");
    assert {Conn(2)} + {Conn(1)} == {Conn(1), Conn(2)};
    var entry := Entry("t3", "alice", "bob", "hello");
    ConversationSingleton(entry, "alice", "bob");
    ReplayShape([entry], {Conn(1)}, "alice", "bob");
    var replay := ReplayBatches([entry], {Conn(1)}, "alice", "bob");
    assert Conn(1) in {Conn(1)};
    assert replay.Ok? && |replay.value| == 1;
    assert replay.value == [replay.value[0]];
  }

  /** The dispatch of alice's and bob's names in the scenario below. */
  lemma AliceAndBobConnect()
    ensures Apply(World({Conn(1)}, [], []), Conn(1), "t1", Connect("alice")).0 ==
            World({Conn(1)}, [Binding(Conn(1), "alice")], [])
    ensures Apply(World({Conn(1), Conn(2)}, [Binding(Conn(1), "alice")], []), Conn(2), "t2", Connect("bob")).0 ==
            World({Conn(1), Conn(2)}, [Binding(Conn(1), "alice"), Binding(Conn(2), "bob")], [])
  {
    AliceAndBobTable();
  }

  /** The dispatch of alice's message and replay in the scenario below. */
  lemma AliceAndBobChat()
    ensures Apply(World({Conn(1), Conn(2)}, [Binding(Conn(1), "alice"), Binding(Conn(2), "bob")], []),
                  Conn(1), "t3", MessageTo("alice", "bob", "hello")) ==
            (World({Conn(1), Conn(2)}, [Binding(Conn(1), "alice"), Binding(Conn(2), "bob")],
                   [Entry("t3", "alice", "bob", "hello")]),
             Ok([Send({Conn(1), Conn(2)}, Chat("alice", "bob", "hello"))]))
    ensures Apply(World({Conn(1)}, [Binding(Conn(1), "alice"), Binding(Conn(2), "bob")],
                        [Entry("t3", "alice", "bob", "hello")]),
                  Conn(1), "t4", Replay("alice", "bob")).1 ==
            Ok([Send({Conn(1)}, Chat("alice", "bob", "hello"))])
  {
    AliceAndBobTable();
    AliceAndBobSends();
    var entry := Entry("t3", "alice", "bob", "hello");
    assert [] + [entry] == [entry];
  }

  /** An end-to-end scenario, run as two interleaved sessions: alice and bob
      connect, alice writes to bob and both are sent the message, bob's socket
      closes, and alice's replay brings the message back to her alone. */
  method AliceAndBob() returns (delivered: Result<seq<Send>>, replayed: Result<seq<Send>>)
    ensures delivered == Ok([Send({Conn(1), Conn(2)}, Chat("alice", "bob", "hello"))])
    ensures replayed == Ok([Send({Conn(1)}, Chat("alice", "bob", "hello"))])
  {
    var server := new Server();
    AliceAndBobTable();
    AliceAndBobSends();
    var opened1 := server.Open(Conn(1));
    var named1 := server.AddUser(Conn(1), "alice");
    assert server.connected == [Binding(Conn(1), "alice")];
    var opened2 := server.Open(Conn(2));
    var named2 := server.AddUser(Conn(2), "bob");
    assert server.connected == [Binding(Conn(1), "alice"), Binding(Conn(2), "bob")];
    var sends := server.MessageTo("t3", "alice", "bob", "hello");
    delivered := Ok(sends);
    var closed2 := server.Unregister(Conn(2));
    assert server.chat == [Entry("t3", "alice", "bob", "hello")];
    replayed := server.ReplayChat("alice", "bob");
  }
}
