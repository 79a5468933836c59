/** The `chat` list: the append-only log of directed messages. */
module History {
  import opened Bindings
  import opened Text

  /** `(str(time.time()), user_in, user_to, msg)`. */
  datatype Entry = Entry(tm: string, userIn: Name, userTo: Name, msg: string)

  /** The filter of `replay_chat`: the entry is from `a` to `b` or from `b` to `a`. */
  predicate Between(e: Entry, a: Name, b: Name)
  {
    (a == e.userIn && b == e.userTo) || (a == e.userTo && b == e.userIn)
  }

  /** The entries of the log between `a` and `b`, in log order. */
  function Conversation(log: seq<Entry>, a: Name, b: Name): (r: seq<Entry>)
    ensures forall e :: e in r <==> e in log && Between(e, a, b)
    ensures |r| <= |log|
  {
    if log == [] then []
    else
      var last := log[|log| - 1];
      assert log == log[..|log| - 1] + [last];
      Conversation(log[..|log| - 1], a, b) + (if Between(last, a, b) then [last] else [])
  }

  /** The conversation of one entry is that entry or nothing. */
  lemma ConversationSingleton(e: Entry, a: Name, b: Name)
    ensures Conversation([e], a, b) == if Between(e, a, b) then [e] else []
  {
  }

  /** Filtering distributes over appending: re-querying a grown log yields the
      earlier answer followed by the matches among the new entries. */
  lemma {:induction false} ConversationAppend(log: seq<Entry>, more: seq<Entry>, a: Name, b: Name)
    ensures Conversation(log + more, a, b) == Conversation(log, a, b) + Conversation(more, a, b)
  {
    if more == [] {
      assert log + more == log;
    } else {
      var init := more[..|more| - 1];
      var last := more[|more| - 1];
      assert (log + more)[..|log + more| - 1] == log + init;
      assert (log + more)[|log + more| - 1] == last;
      ConversationAppend(log, init, a, b);
    }
  }

  /** The pair of names is unordered. */
  lemma {:induction false} ConversationSymmetric(log: seq<Entry>, a: Name, b: Name)
    ensures Conversation(log, a, b) == Conversation(log, b, a)
  {
    if log != [] {
      ConversationSymmetric(log[..|log| - 1], a, b);
    }
  }

  /** A replay example: two of three entries are between "a" and "b". */
  lemma ConversationExample(t1: string, t2: string, t3: string)
    ensures
      var e1 := Entry(t1, "a", "b", "x");
      var e2 := Entry(t2, "c", "d", "y");
      var e3 := Entry(t3, "b", "a", "z");
      Conversation([e1, e2, e3], "a", "b") == [e1, e3]
  {
    var e1 := Entry(t1, "a", "b", "x");
    var e2 := Entry(t2, "c", "d", "y");
    var e3 := Entry(t3, "b", "a", "z");
    ConversationSingleton(e1, "a", "b");
    ConversationSingleton(e2, "a", "b");
    ConversationSingleton(e3, "a", "b");
    ConversationAppend([e1], [e2], "a", "b");
    ConversationAppend([e1, e2], [e3], "a", "b");
    assert [e1] + [e2] == [e1, e2];
    assert [e1, e2] + [e3] == [e1, e2, e3];
  }

  /** `';'.join([tm, _in, _out, _msg])`, one line of `show_chat`. */
  function EntryLine(e: Entry): string
  {
    Join([e.tm, e.userIn, e.userTo, e.msg], ";")
  }

  /** A line keeps the entry's four fields, in order, when none contains ';'. */
  lemma EntryLineFields(e: Entry)
    requires ';' !in e.tm && ';' !in e.userIn && ';' !in e.userTo && ';' !in e.msg
    ensures Split(EntryLine(e), ';') == [e.tm, e.userIn, e.userTo, e.msg]
  {
    SplitJoin([e.tm, e.userIn, e.userTo, e.msg], ';');
  }
}
