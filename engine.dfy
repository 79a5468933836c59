/** The server's three structures as one value, and what the handlers, one frame,
    and a whole session do to it. The methods of `ChatServer.Server` are proved
    to follow these definitions. */
module Engine {
  import opened Outcomes
  import opened Bindings
  import opened Events
  import opened History
  import opened Routing
  import opened Session

  /** `USERS`, `connected` and `chat` at one moment. */
  datatype World = World(users: set<Conn>, connected: Table, chat: seq<Entry>)

  /** `connected` is a dictionary whose names are never shared. */
  predicate WellFormed(w: World)
  {
    KeysDistinct(w.connected) && NamesDistinct(w.connected)
  }

  /** The sends of `show_users()` in `w`. */
  function UserList(w: World): seq<Send>
  {
    Broadcast(w.users, Users(UserListText(w.connected)))
  }

  /** The branch of the dispatch in `producer` for action `a` of connection `ws`:
      the new world and the batches sent, or the exception raised. */
  function Apply(w: World, ws: Conn, clock: string, a: Action): (World, Result<seq<Send>>)
  {
    match a
    case Skip => (w, Ok([]))
    case Other(_) => (w, Ok([]))
    case Connect(name) =>
      var w' := w.(connected := Rebind(w.connected, ws, name));
      (w', Ok(UserList(w')))
    case Disconnect =>
      if ws in Keys(w.connected) then
        var w' := w.(connected := Delete(w.connected, ws));
        (w', Ok(UserList(w')))
      else (w, Err(NotBound))
    case MessageTo(name, userTo, message) =>
      (w.(chat := w.chat + [Entry(clock, name, userTo, message)]),
       Ok(MessageSends(w.connected, name, userTo, message)))
    case Replay(name, userTo) =>
      (w, ReplayBatches(w.chat, Holders(w.connected, name), name, userTo))
  }

  /** One pass of the `async for`: decode the frame, then dispatch. */
  function Step(w: World, ws: Conn, f: Frame): (World, Result<seq<Send>>)
  {
    match Decode(f.body)
    case Err(fault) => (w, Err(fault))
    case Ok(a) => Apply(w, ws, f.clock, a)
  }

  /** What a run over some frames ends with. */
  datatype Outcome = Outcome(world: World, sends: seq<Send>, handled: nat, fault: Option<Fault>)

  /** `later`, after `handled` frames that sent `sends` were handled before it. */
  function Then(sends: seq<Send>, handled: nat, later: Outcome): Outcome
  {
    Outcome(later.world, sends + later.sends, handled + later.handled, later.fault)
  }

  lemma ThenThen(a: seq<Send>, m: nat, b: seq<Send>, n: nat, o: Outcome)
    ensures Then(a, m, Then(b, n, o)) == Then(a + b, m + n, o)
  {
    assert a + (b + o.sends) == (a + b) + o.sends;
  }

  /** The `async for` over `inbox`: frames are handled in order until one raises. */
  function Run(w: World, ws: Conn, inbox: seq<Frame>): (r: Outcome)
    ensures r.handled <= |inbox|
    decreases |inbox|
  {
    if inbox == [] then Outcome(w, [], 0, None)
    else
      var step := Step(w, ws, inbox[0]);
      match step.1
      case Err(fault) => Outcome(step.0, [], 0, Some(fault))
      case Ok(sends) => Then(sends, 1, Run(step.0, ws, inbox[1..]))
  }

  /** One turn of the loop: the first frame's step, then the rest of the frames. */
  lemma RunFirst(w: World, ws: Conn, inbox: seq<Frame>)
    requires inbox != []
    ensures var step := Step(w, ws, inbox[0]);
            Run(w, ws, inbox) ==
              if step.1.Err? then Outcome(step.0, [], 0, Some(step.1.fault))
              else Then(step.1.value, 1, Run(step.0, ws, inbox[1..]))
  {
  }

  /** The batches that open a session: the user list, then the state event to `ws` alone. */
  function Opening(w: World, ws: Conn): seq<Send>
  {
    UserList(w.(users := w.users + {ws})) + [Send({ws}, StateEvent())]
  }

  /** `producer(websocket, path)` run on its own: register and welcome, run the
      frames, and unregister in the `finally` whatever ended the loop. */
  function Lifecycle(w: World, ws: Conn, inbox: seq<Frame>): (r: Outcome)
    ensures r.handled <= |inbox|
  {
    var run := Run(w.(users := w.users + {ws}), ws, inbox);
    var closed := run.world.(users := run.world.users - {ws});
    Outcome(closed, Opening(w, ws) + run.sends + UserList(closed), run.handled, run.fault)
  }

  /** The entry a frame adds to the log: its message, if it decodes to one. */
  function LoggedBy(f: Frame): seq<Entry>
  {
    match Decode(f.body)
    case Ok(MessageTo(name, userTo, message)) => [Entry(f.clock, name, userTo, message)]
    case _ => []
  }

  /** The entries some frames add to the log, in order. */
  function Logged(frames: seq<Frame>): seq<Entry>
  {
    if frames == [] then [] else LoggedBy(frames[0]) + Logged(frames[1..])
  }

  /** A handler keeps the dictionary well formed and `USERS` as it was; only a
      message adds to the log; and a handler that raises has changed nothing. */
  lemma StepInvariant(w: World, ws: Conn, f: Frame)
    requires WellFormed(w)
    ensures WellFormed(Step(w, ws, f).0)
    ensures Step(w, ws, f).0.users == w.users
    ensures Step(w, ws, f).0.chat == w.chat + LoggedBy(f)
    ensures Step(w, ws, f).1.Err? ==> Step(w, ws, f).0 == w
  {
    match Decode(f.body)
    case Err(_) =>
    case Ok(a) =>
      match a
      case Connect(name) => RebindUnique(w.connected, ws, name);
      case Disconnect => DeleteDistinct(w.connected, ws);
      case _ =>
  }

  /** The exceptions one frame can raise: its decoding fault, the KeyError of
      unbinding an unbound connection, or the empty wait of a replay. */
  lemma StepFaults(w: World, ws: Conn, f: Frame)
    ensures Step(w, ws, f).1.Err? ==>
      match Decode(f.body)
      case Err(fault) => Step(w, ws, f).1.fault == fault
      case Ok(a) =>
        || (a.Disconnect? && Step(w, ws, f).1.fault == NotBound && ws !in Keys(w.connected))
        || (a.Replay? && Step(w, ws, f).1.fault == EmptyWait && Holders(w.connected, a.name) == {})
  {
    match Decode(f.body)
    case Err(_) =>
    case Ok(a) =>
      if a.Replay? {
        ReplayShape(w.chat, Holders(w.connected, a.name), a.name, a.userTo);
      }
  }

  /** The loop handles a prefix of the frames, all of which decode, and stops
      exactly at the first frame that raises, with that frame's exception. */
  lemma {:induction false} RunStops(w: World, ws: Conn, inbox: seq<Frame>)
    ensures Run(w, ws, inbox).handled <= |inbox|
    ensures Run(w, ws, inbox).fault.None? <==> Run(w, ws, inbox).handled == |inbox|
    ensures forall k :: 0 <= k < Run(w, ws, inbox).handled ==> Decode(inbox[k].body).Ok?
    ensures forall k :: 0 <= k < |inbox| && Decode(inbox[k].body).Err? ==>
              Run(w, ws, inbox).fault.Some? && Run(w, ws, inbox).handled <= k
    ensures Run(w, ws, inbox).fault.Some? && Decode(inbox[Run(w, ws, inbox).handled].body).Err? ==>
              Run(w, ws, inbox).fault.value == Decode(inbox[Run(w, ws, inbox).handled].body).fault
    ensures Run(w, ws, inbox).fault.Some? ==>
              Run(w, ws, inbox).handled < |inbox| &&
              Step(Run(w, ws, inbox).world, ws, inbox[Run(w, ws, inbox).handled]).1 ==
                Err(Run(w, ws, inbox).fault.value)
    decreases |inbox|
  {
    if inbox != [] {
      var step := Step(w, ws, inbox[0]);
      if step.1.Ok? {
        RunStops(step.0, ws, inbox[1..]);
        var h := Run(step.0, ws, inbox[1..]).handled;
        if h < |inbox| - 1 {
          assert inbox[h + 1] == inbox[1..][h];
        }
        forall k | 0 <= k < Run(w, ws, inbox).handled ensures Decode(inbox[k].body).Ok? {
          if k > 0 {
            assert inbox[k] == inbox[1..][k - 1];
          }
        }
        forall k | 0 <= k < |inbox| && Decode(inbox[k].body).Err?
          ensures Run(w, ws, inbox).fault.Some? && Run(w, ws, inbox).handled <= k
        {
          assert k != 0;
          assert inbox[k] == inbox[1..][k - 1];
        }
      } else {
        assert step.0 == w;
      }
    }
  }

  /** The loop keeps the dictionary well formed and `USERS` as it was, and the
      log ends as it began followed by the messages of the handled frames, in order. */
  lemma {:induction false} RunInvariant(w: World, ws: Conn, inbox: seq<Frame>)
    requires WellFormed(w)
    ensures WellFormed(Run(w, ws, inbox).world)
    ensures Run(w, ws, inbox).world.users == w.users
    ensures Run(w, ws, inbox).world.chat == w.chat + Logged(inbox[..Run(w, ws, inbox).handled])
    decreases |inbox|
  {
    if inbox != [] {
      var step := Step(w, ws, inbox[0]);
      StepInvariant(w, ws, inbox[0]);
      RunFirst(w, ws, inbox);
      if step.1.Ok? {
        RunInvariant(step.0, ws, inbox[1..]);
        var h := Run(step.0, ws, inbox[1..]).handled;
        assert inbox[..h + 1] == [inbox[0]] + inbox[1..][..h];
        assert Logged(inbox[..h + 1]) == LoggedBy(inbox[0]) + Logged(inbox[1..][..h]);
        assert (w.chat + LoggedBy(inbox[0])) + Logged(inbox[1..][..h]) == w.chat + Logged(inbox[..h + 1]);
      } else {
        assert inbox[..0] == [];
      }
    }
  }

  /** A whole session leaves the dictionary well formed and `ws` out of `USERS`,
      adds to the log exactly the messages it handled, and ends early exactly
      when a frame raised. */
  lemma LifecycleState(w: World, ws: Conn, inbox: seq<Frame>)
    requires WellFormed(w)
    ensures WellFormed(Lifecycle(w, ws, inbox).world)
    ensures Lifecycle(w, ws, inbox).world.users == w.users - {ws}
    ensures Lifecycle(w, ws, inbox).world.chat == w.chat + Logged(inbox[..Lifecycle(w, ws, inbox).handled])
    ensures Lifecycle(w, ws, inbox).fault.None? <==> Lifecycle(w, ws, inbox).handled == |inbox|
    ensures var s := Lifecycle(w, ws, inbox);
            s.fault.Some? ==>
              s.handled < |inbox| &&
              Step(s.world.(users := w.users + {ws}), ws, inbox[s.handled]).1 == Err(s.fault.value)
  {
    var joined := w.(users := w.users + {ws});
    RunInvariant(joined, ws, inbox);
    RunStops(joined, ws, inbox);
  }

  /** A session's first batches are the opening ones and its last the user
      list after `ws` left, whatever ended it. */
  lemma LifecycleSends(w: World, ws: Conn, inbox: seq<Frame>)
    ensures Opening(w, ws) <= Lifecycle(w, ws, inbox).sends
    ensures var s := Lifecycle(w, ws, inbox);
            var closing := UserList(s.world);
            |closing| <= |s.sends| && s.sends[|s.sends| - |closing|..] == closing
  {
    var s := Lifecycle(w, ws, inbox);
    var middle := Run(w.(users := w.users + {ws}), ws, inbox).sends;
    assert s.sends == Opening(w, ws) + (middle + UserList(s.world));
    assert s.sends == (Opening(w, ws) + middle) + UserList(s.world);
  }

  /** The new connection is first sent the user list, then the state event. */
  lemma LifecycleWelcome(w: World, ws: Conn, inbox: seq<Frame>)
    ensures var d := Deliveries(Lifecycle(w, ws, inbox).sends, ws);
            |d| >= 2 && d[..2] == [Users(UserListText(w.connected)), State(StateValue)]
  {
    var s := Lifecycle(w, ws, inbox);
    var rest := Run(w.(users := w.users + {ws}), ws, inbox).sends + UserList(s.world);
    assert s.sends == Opening(w, ws) + rest;
    DeliveriesAppend(Opening(w, ws), rest, ws);
    var welcome := [Send({ws}, StateEvent())];
    DeliveriesAppend(UserList(w.(users := w.users + {ws})), welcome, ws);
    assert Deliveries(welcome, ws) == [State(StateValue)] by {
      assert welcome[1..] == [];
    }
  }
}
