/** The `connected` dictionary of the chat server: an insertion-ordered map
    from connection to display name, kept as a sequence of bindings so that
    the order of `connected.values()` and `connected.items()` is part of the model. */
module Bindings {
  import opened Outcomes

  /** An opaque handle on one live websocket. */
  datatype Conn = Conn(id: nat)

  type Name = string

  datatype Binding = Binding(conn: Conn, name: Name)

  /** The dictionary's items in insertion order. */
  type Table = seq<Binding>

  function Keys(t: Table): set<Conn>
  {
    set b | b in t :: b.conn
  }

  lemma KeysCons(x: Binding, t: Table)
    ensures Keys([x] + t) == {x.conn} + Keys(t)
  {
  }

  /** The connections bound to `name`. */
  function Holders(t: Table, name: Name): set<Conn>
  {
    set b | b in t && b.name == name :: b.conn
  }

  /** `connected.values()`, in order. */
  function Values(t: Table): seq<Name>
  {
    seq(|t|, k requires 0 <= k < |t| => t[k].name)
  }

  /** A dictionary never holds a key twice. */
  predicate KeysDistinct(t: Table)
  {
    forall i, j :: 0 <= i < j < |t| ==> t[i].conn != t[j].conn
  }

  /** No display name is bound to two connections. */
  predicate NamesDistinct(t: Table)
  {
    forall i, j :: 0 <= i < j < |t| ==> t[i].name != t[j].name
  }

  lemma KeysDistinctCons(x: Binding, t: Table)
    ensures KeysDistinct([x] + t) <==> x.conn !in Keys(t) && KeysDistinct(t)
  {
    var s := [x] + t;
    if KeysDistinct(s) {
      forall b | b in t ensures b.conn != x.conn {
        var j :| 0 <= j < |t| && t[j] == b;
        assert s[0] == x && s[j + 1] == b;
      }
      forall i, j | 0 <= i < j < |t| ensures t[i].conn != t[j].conn {
        assert s[i + 1] == t[i] && s[j + 1] == t[j];
      }
    }
    if x.conn !in Keys(t) && KeysDistinct(t) {
      forall i, j | 0 <= i < j < |s| ensures s[i].conn != s[j].conn {
        assert s[j] == t[j - 1] && s[j] in t;
        if i > 0 {
          assert s[i] == t[i - 1];
        }
      }
    }
  }

  lemma NamesDistinctCons(x: Binding, t: Table)
    ensures NamesDistinct([x] + t) <==> Holders(t, x.name) == {} && NamesDistinct(t)
  {
    var s := [x] + t;
    if NamesDistinct(s) {
      forall b | b in t ensures b.name != x.name {
        var j :| 0 <= j < |t| && t[j] == b;
        assert s[0] == x && s[j + 1] == b;
      }
      forall i, j | 0 <= i < j < |t| ensures t[i].name != t[j].name {
        assert s[i + 1] == t[i] && s[j + 1] == t[j];
      }
    }
    if Holders(t, x.name) == {} && NamesDistinct(t) {
      forall i, j | 0 <= i < j < |s| ensures s[i].name != s[j].name {
        assert s[j] == t[j - 1] && s[j] in t;
        if i > 0 {
          assert s[i] == t[i - 1];
        } else {
          assert s[j].conn !in Holders(t, x.name);
        }
      }
    }
  }

  /** With distinct names, a name identifies its binding. */
  lemma NamedEntryUnique(t: Table, b1: Binding, b2: Binding)
    requires NamesDistinct(t) && b1 in t && b2 in t && b1.name == b2.name
    ensures b1 == b2
  {
  }

  // ---------------------------------------------------------------------
  // The two dictionary mutations the server performs.

  /** `connected[c] = n`: an existing key keeps its place, a new key goes last. */
  function Put(t: Table, c: Conn, n: Name): (r: Table)
    ensures Keys(r) == Keys(t) + {c}
    ensures Binding(c, n) in r
  {
    if t == [] then [Binding(c, n)]
    else if t[0].conn == c then [Binding(c, n)] + t[1..]
    else
      KeysCons(t[0], t[1..]);
      KeysCons(t[0], Put(t[1..], c, n));
      assert t == [t[0]] + t[1..];
      [t[0]] + Put(t[1..], c, n)
  }

  /** `del connected[c]` (for a present key; every entry of `c` goes). */
  function Delete(t: Table, c: Conn): (r: Table)
    ensures forall b :: b in r <==> b in t && b.conn != c
    ensures Keys(r) == Keys(t) - {c}
  {
    if t == [] then []
    else
      assert t == [t[0]] + t[1..];
      if t[0].conn == c then Delete(t[1..], c) else [t[0]] + Delete(t[1..], c)
  }

  /** After `d[c] = n` the bindings are those of `d` for other keys, plus `c -> n`. */
  lemma {:induction false} PutMembers(t: Table, c: Conn, n: Name)
    requires KeysDistinct(t)
    ensures forall b :: b in Put(t, c, n) <==> b == Binding(c, n) || (b in t && b.conn != c)
  {
    if t != [] {
      KeysDistinctCons(t[0], t[1..]);
      assert t == [t[0]] + t[1..];
      if t[0].conn != c {
        PutMembers(t[1..], c, n);
      }
    }
  }

  /** Assignment keeps the keys distinct. */
  lemma {:induction false} PutKeysDistinct(t: Table, c: Conn, n: Name)
    requires KeysDistinct(t)
    ensures KeysDistinct(Put(t, c, n))
  {
    if t != [] {
      KeysDistinctCons(t[0], t[1..]);
      assert t == [t[0]] + t[1..];
      if t[0].conn == c {
        KeysDistinctCons(Binding(c, n), t[1..]);
      } else {
        PutKeysDistinct(t[1..], c, n);
        KeysDistinctCons(t[0], Put(t[1..], c, n));
      }
    }
  }

  /** Binding a name no other connection holds keeps names distinct. */
  lemma {:induction false} PutNamesDistinct(t: Table, c: Conn, n: Name)
    requires KeysDistinct(t) && NamesDistinct(t)
    requires Holders(t, n) <= {c}
    ensures NamesDistinct(Put(t, c, n))
  {
    if t != [] {
      KeysDistinctCons(t[0], t[1..]);
      NamesDistinctCons(t[0], t[1..]);
      assert t == [t[0]] + t[1..];
      if t[0].conn == c {
        assert Holders(t[1..], n) == {} by {
          forall b | b in t[1..] ensures b.name != n {
            assert b in t && b.conn in Keys(t[1..]);
            assert b.conn != c;
            assert b.conn !in Holders(t, n);
          }
        }
        NamesDistinctCons(Binding(c, n), t[1..]);
      } else {
        assert t[0].name != n by {
          assert t[0].conn !in Holders(t, n);
        }
        assert Holders(t[1..], n) <= Holders(t, n);
        PutNamesDistinct(t[1..], c, n);
        PutMembers(t[1..], c, n);
        assert Holders(Put(t[1..], c, n), t[0].name) == {} by {
          forall b | b in Put(t[1..], c, n) ensures b.name != t[0].name {
            if b != Binding(c, n) {
              assert b in t[1..];
            }
          }
        }
        NamesDistinctCons(t[0], Put(t[1..], c, n));
      }
    }
  }

  /** Assigning a new key appends it. */
  lemma {:induction false} PutNew(t: Table, c: Conn, n: Name)
    requires c !in Keys(t)
    ensures Put(t, c, n) == t + [Binding(c, n)]
  {
    if t != [] {
      assert t[0] in t;
      assert Keys(t[1..]) <= Keys(t);
      PutNew(t[1..], c, n);
      assert t == [t[0]] + t[1..];
    }
  }

  /** Assigning an existing key rewrites its entry where it stands. */
  lemma {:induction false} PutInPlace(t: Table, c: Conn, n: Name) returns (i: nat)
    requires c in Keys(t)
    ensures i < |t| && t[i].conn == c
    ensures forall k :: 0 <= k < i ==> t[k].conn != c
    ensures Put(t, c, n) == t[i := Binding(c, n)]
  {
    if t[0].conn == c {
      i := 0;
    } else {
      assert t == [t[0]] + t[1..];
      assert c in Keys(t[1..]);
      var j := PutInPlace(t[1..], c, n);
      i := j + 1;
      assert Put(t, c, n) == [t[0]] + t[1..][j := Binding(c, n)];
    }
  }

  /** Deleting an absent key changes nothing. */
  lemma {:induction false} DeleteAbsent(t: Table, c: Conn)
    requires c !in Keys(t)
    ensures Delete(t, c) == t
  {
    if t != [] {
      assert t[0] in t;
      assert Keys(t[1..]) <= Keys(t);
      DeleteAbsent(t[1..], c);
      assert t == [t[0]] + t[1..];
    }
  }

  /** Deletions of two keys commute. */
  lemma {:induction false} DeleteCommutes(t: Table, c: Conn, d: Conn)
    ensures Delete(Delete(t, c), d) == Delete(Delete(t, d), c)
  {
    if t != [] {
      DeleteCommutes(t[1..], c, d);
    }
  }

  /** Once a key is assigned and deleted, nothing of it is left: every other
      entry is as before, in the same relative order. */
  lemma {:induction false} DeletePut(t: Table, c: Conn, n: Name)
    ensures Delete(Put(t, c, n), c) == Delete(t, c)
  {
    if t != [] && t[0].conn != c {
      DeletePut(t[1..], c, n);
    }
  }

  /** Deleting keeps keys and names distinct. */
  lemma {:induction false} DeleteDistinct(t: Table, c: Conn)
    ensures KeysDistinct(t) ==> KeysDistinct(Delete(t, c))
    ensures NamesDistinct(t) ==> NamesDistinct(Delete(t, c))
  {
    if t != [] {
      assert t == [t[0]] + t[1..];
      KeysDistinctCons(t[0], t[1..]);
      NamesDistinctCons(t[0], t[1..]);
      DeleteDistinct(t[1..], c);
      if t[0].conn != c {
        KeysDistinctCons(t[0], Delete(t[1..], c));
        NamesDistinctCons(t[0], Delete(t[1..], c));
        assert Holders(Delete(t[1..], c), t[0].name) <= Holders(t[1..], t[0].name);
      }
    }
  }

  /** Each name is listed by `connected.values()` once if bound, never otherwise. */
  lemma {:induction false} NameListedOnce(t: Table, n: Name)
    requires NamesDistinct(t)
    ensures multiset(Values(t))[n] == if Holders(t, n) == {} then 0 else 1
  {
    if t == [] {
      assert Values(t) == [];
    } else {
      assert t == [t[0]] + t[1..];
      assert Values(t) == [t[0].name] + Values(t[1..]);
      NamesDistinctCons(t[0], t[1..]);
      NameListedOnce(t[1..], n);
      assert t[0].conn in Holders(t, t[0].name);
      if t[0].name == n {
        assert multiset(Values(t[1..]))[n] == 0;
      } else {
        assert Holders(t, n) == Holders(t[1..], n);
      }
    }
  }

  // ---------------------------------------------------------------------
  // add_user: the search for the current holder of a name, and the rebinding.

  /** The first connection, in insertion order, bound to `name`. */
  function FirstHolder(t: Table, name: Name): (r: Option<Conn>)
    ensures r.None? <==> Holders(t, name) == {}
    ensures r.Some? ==> Binding(r.value, name) in t
  {
    if t == [] then None
    else
      assert t == [t[0]] + t[1..];
      if t[0].name == name then
        assert t[0].conn in Holders(t, name);
        Some(t[0].conn)
      else
        assert Holders(t, name) == Holders(t[1..], name);
        FirstHolder(t[1..], name)
  }

  /** The holder found is the first entry bound to the name. */
  lemma {:induction false} FirstHolderIsFirst(t: Table, name: Name, h: Conn) returns (i: nat)
    requires FirstHolder(t, name) == Some(h)
    ensures i < |t| && t[i] == Binding(h, name)
    ensures forall k :: 0 <= k < i ==> t[k].name != name
  {
    if t[0].name == name {
      i := 0;
    } else {
      var j := FirstHolderIsFirst(t[1..], name, h);
      i := j + 1;
    }
  }

  /** `connected` after the eviction step of `add_user`. */
  function Evict(t: Table, name: Name): Table
  {
    match FirstHolder(t, name)
    case Some(h) => Delete(t, h)
    case None => t
  }

  /** `connected` after `add_user(ws, name)`. */
  function Rebind(t: Table, ws: Conn, name: Name): Table
  {
    Put(Evict(t, name), ws, name)
  }

  /** After `add_user`, `ws` is the one holder of `name`, and keys and names stay distinct. */
  lemma RebindUnique(t: Table, ws: Conn, name: Name)
    requires KeysDistinct(t) && NamesDistinct(t)
    ensures KeysDistinct(Rebind(t, ws, name)) && NamesDistinct(Rebind(t, ws, name))
    ensures Holders(Rebind(t, ws, name), name) == {ws}
  {
    var kept := Evict(t, name);
    if FirstHolder(t, name).Some? {
      var h := FirstHolder(t, name).value;
      DeleteDistinct(t, h);
      forall b | b in kept ensures b.name != name {
        if b.name == name {
          NamedEntryUnique(t, b, Binding(h, name));
        }
      }
    }
    assert Holders(kept, name) == {};
    PutKeysDistinct(kept, ws, name);
    PutNamesDistinct(kept, ws, name);
    PutMembers(kept, ws, name);
    var r := Rebind(t, ws, name);
    forall c | c in Holders(r, name) ensures c == ws {
      var b :| b in r && b.name == name && b.conn == c;
    }
  }

  /** `add_user` unbinds exactly the evicted holder (if it is not `ws`) and binds `ws`. */
  lemma RebindKeys(t: Table, ws: Conn, name: Name)
    ensures FirstHolder(t, name).None? ==> Keys(Rebind(t, ws, name)) == Keys(t) + {ws}
    ensures FirstHolder(t, name).Some? ==>
      Keys(Rebind(t, ws, name)) == Keys(t) - {FirstHolder(t, name).value} + {ws}
  {
  }

  /** `add_user` leaves every other binding as it was, in the same relative
      order, and replaces whatever `ws` held before. */
  lemma RebindKeepsOthers(t: Table, ws: Conn, name: Name)
    requires KeysDistinct(t)
    ensures forall b: Binding :: b.conn != ws && Some(b.conn) != FirstHolder(t, name) ==>
      (b in Rebind(t, ws, name) <==> b in t)
    ensures forall b: Binding :: b in Rebind(t, ws, name) && b.conn == ws ==> b.name == name
    ensures FirstHolder(t, name).None? ==> Delete(Rebind(t, ws, name), ws) == Delete(t, ws)
    ensures FirstHolder(t, name).Some? ==>
      var h := FirstHolder(t, name).value;
      Delete(Delete(Rebind(t, ws, name), ws), h) == Delete(Delete(t, ws), h)
  {
    var kept := Evict(t, name);
    if FirstHolder(t, name).Some? {
      var h := FirstHolder(t, name).value;
      DeleteDistinct(t, h);
      DeleteCommutes(t, h, ws);
      DeleteAbsent(Delete(Delete(t, ws), h), h);
    }
    PutMembers(kept, ws, name);
    DeletePut(kept, ws, name);
  }

  /** A connection that was unbound, or that itself held `name`, ends up last
      in `connected`: re-claiming one's own name moves one to the end of the user list. */
  lemma RebindMovesToEnd(t: Table, ws: Conn, name: Name)
    requires ws !in Keys(t) || FirstHolder(t, name) == Some(ws)
    ensures Rebind(t, ws, name) == Evict(t, name) + [Binding(ws, name)]
    ensures ws !in Keys(Evict(t, name))
  {
    PutNew(Evict(t, name), ws, name);
  }

  /** `del connected[websocket]` in `remove_user` keeps the dictionary's keys and
      names distinct and takes `ws`, and only `ws`, out of every name's holders. */
  lemma DeleteUnbinds(t: Table, ws: Conn)
    requires KeysDistinct(t) && NamesDistinct(t)
    ensures KeysDistinct(Delete(t, ws)) && NamesDistinct(Delete(t, ws))
    ensures ws !in Keys(Delete(t, ws))
    ensures forall n :: Holders(Delete(t, ws), n) == Holders(t, n) - {ws}
  {
    DeleteDistinct(t, ws);
    forall n ensures Holders(Delete(t, ws), n) == Holders(t, n) - {ws} {
      forall c | c in Holders(t, n) - {ws} ensures c in Holders(Delete(t, ws), n) {
        var b :| b in t && b.name == n && b.conn == c;
      }
    }
  }
}
