/** Who is sent what by `message_to` and `replay_chat`. */
module Routing {
  import opened Outcomes
  import opened Bindings
  import opened Events
  import opened History

  /** The chat event that carries a log entry. */
  function Echo(e: Entry): Event
  {
    Chat(e.userIn, e.userTo, e.msg)
  }

  /** The loop of `message_to`: one copy of `batch` per entry of `t` bound to `userTo`. */
  function FanOut(t: Table, userTo: Name, batch: Send): seq<Send>
  {
    if t == [] then []
    else (if t[0].name == userTo then [batch] else []) + FanOut(t[1..], userTo, batch)
  }

  /** Every batch of a fan-out is `batch`; there is one when `userTo` is bound,
      none when it is not, and at most one when names are distinct. */
  lemma {:induction false} FanOutShape(t: Table, userTo: Name, batch: Send)
    ensures forall k :: 0 <= k < |FanOut(t, userTo, batch)| ==> FanOut(t, userTo, batch)[k] == batch
    ensures FanOut(t, userTo, batch) == [] <==> Holders(t, userTo) == {}
    ensures NamesDistinct(t) ==> |FanOut(t, userTo, batch)| <= 1
  {
    if t != [] {
      assert t == [t[0]] + t[1..];
      FanOutShape(t[1..], userTo, batch);
      NamesDistinctCons(t[0], t[1..]);
      if t[0].name == userTo {
        assert t[0].conn in Holders(t, userTo);
      } else {
        assert Holders(t, userTo) == Holders(t[1..], userTo);
      }
    }
  }

  /** The sends of `message_to(user_in, user_to, msg)` against the bindings `t`. */
  function MessageSends(t: Table, userIn: Name, userTo: Name, msg: string): seq<Send>
  {
    FanOut(t, userTo, Send(Holders(t, userTo) + Holders(t, userIn), Chat(userIn, userTo, msg)))
  }

  /** A message to an unbound name is sent to nobody, not even echoed to its sender. */
  lemma MessageOffline(t: Table, userIn: Name, userTo: Name, msg: string)
    requires Holders(t, userTo) == {}
    ensures MessageSends(t, userIn, userTo, msg) == []
  {
    FanOutShape(t, userTo, Send(Holders(t, userTo) + Holders(t, userIn), Chat(userIn, userTo, msg)));
  }

  /** With distinct names, a message to a bound name is one batch carrying the
      chat event to the holders of both names, and so reaches exactly them, once. */
  lemma MessageOnline(t: Table, userIn: Name, userTo: Name, msg: string)
    requires NamesDistinct(t) && Holders(t, userTo) != {}
    ensures MessageSends(t, userIn, userTo, msg) ==
      [Send(Holders(t, userTo) + Holders(t, userIn), Chat(userIn, userTo, msg))]
    ensures NoEmptyBatch(MessageSends(t, userIn, userTo, msg))
    ensures forall c :: Deliveries(MessageSends(t, userIn, userTo, msg), c) ==
                        if c in Holders(t, userTo) || c in Holders(t, userIn) then [Chat(userIn, userTo, msg)] else []
  {
    var batch := Send(Holders(t, userTo) + Holders(t, userIn), Chat(userIn, userTo, msg));
    FanOutShape(t, userTo, batch);
    var r := MessageSends(t, userIn, userTo, msg);
    assert r[0] == batch;
    assert r == [batch];
    forall c ensures Deliveries(r, c) == if c in batch.recipients then [batch.event] else [] {
      assert r[1..] == [];
    }
  }

  /** Every batch `message_to` issues has a recipient, whatever the bindings. */
  lemma MessageNoEmptyBatch(t: Table, userIn: Name, userTo: Name, msg: string)
    ensures NoEmptyBatch(MessageSends(t, userIn, userTo, msg))
  {
    var batch := Send(Holders(t, userTo) + Holders(t, userIn), Chat(userIn, userTo, msg));
    FanOutShape(t, userTo, batch);
  }

  /** The loop of `replay_chat(a, b)` over `log`, each matching entry sent to `rec`,
      the connections bound to `a`; an `asyncio.wait` on no connection fails. */
  function ReplayBatches(log: seq<Entry>, rec: set<Conn>, a: Name, b: Name): Result<seq<Send>>
  {
    if log == [] then Ok([])
    else
      var last := log[|log| - 1];
      match ReplayBatches(log[..|log| - 1], rec, a, b)
      case Err(f) => Err(f)
      case Ok(sends) =>
        if !Between(last, a, b) then Ok(sends)
        else if rec == {} then Err(EmptyWait)
        else Ok(sends + [Send(rec, Echo(last))])
  }

  /** Replay fails exactly when some entry matches and nobody is bound to the
      requester; otherwise it sends, in log order, one batch per matching entry,
      carrying that entry, to the requester's connections. */
  lemma {:induction false} ReplayShape(log: seq<Entry>, rec: set<Conn>, a: Name, b: Name)
    ensures ReplayBatches(log, rec, a, b).Err? <==> Conversation(log, a, b) != [] && rec == {}
    ensures ReplayBatches(log, rec, a, b).Err? ==> ReplayBatches(log, rec, a, b).fault == EmptyWait
    ensures ReplayBatches(log, rec, a, b).Ok? ==>
      var sends := ReplayBatches(log, rec, a, b).value;
      var conv := Conversation(log, a, b);
      |sends| == |conv| &&
      forall k :: 0 <= k < |sends| ==> sends[k] == Send(rec, Echo(conv[k]))
  {
    if log != [] {
      ReplayShape(log[..|log| - 1], rec, a, b);
    }
  }

  /** A successful replay never issues an empty batch. */
  lemma ReplayNoEmptyBatch(log: seq<Entry>, rec: set<Conn>, a: Name, b: Name)
    requires ReplayBatches(log, rec, a, b).Ok?
    ensures NoEmptyBatch(ReplayBatches(log, rec, a, b).value)
  {
  }
}
