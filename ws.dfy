/** The web viewer's WebSocket side: the message record it pushes to
    browsers, the ordering used to sort the recent messages, and the list of
    connected clients that the accept, read and write loops maintain. */
module Ws {
  /** wsMessage: who wrote what where, and when (Unix seconds). */
  datatype WsMessage = WsMessage(user: string, channel: string, text: string, ts: int)

  /** A browser connection, known by identity only. */
  type Conn = int

  // ---------------------------------------------------------------------------
  // Ordering of wsMessages

  /** Less: strictly earlier timestamp. No message is Less than itself, and
      messages with the same timestamp are unordered. */
  predicate Less(a: WsMessage, b: WsMessage): (r: bool)
    ensures r ==> a != b
    ensures a.ts == b.ts ==> !r
  {
    a.ts < b.ts
  }

  /** What sort.Sort produces under Less: no message is Less than one before
      it, i.e. timestamps never decrease. */
  predicate SortedByTS(m: seq<WsMessage>)
  {
    forall i, j | 0 <= i < j < |m| :: !Less(m[j], m[i])
  }

  /** Less is a strict weak order, as sort.Sort requires: irreflexive,
      transitive, and "neither before the other" is transitive too. */
  lemma LessStrictWeakOrder(a: WsMessage, b: WsMessage, c: WsMessage)
    ensures !Less(a, a)
    ensures Less(a, b) && Less(b, c) ==> Less(a, c)
    ensures !Less(a, b) && !Less(b, a) && !Less(b, c) && !Less(c, b) ==> !Less(a, c) && !Less(c, a)
  {
  }

  /** A sorted list has non-decreasing timestamps, adjacent or not. */
  lemma {:induction false} SortedAdjacent(m: seq<WsMessage>)
    requires forall i | 0 <= i < |m| - 1 :: m[i].ts <= m[i + 1].ts
    ensures SortedByTS(m)
    decreases |m|
  {
    if |m| > 1 {
      var tail := m[1..];
      assert forall i | 0 <= i < |tail| - 1 :: tail[i].ts <= tail[i + 1].ts by {
        forall i | 0 <= i < |tail| - 1 ensures tail[i].ts <= tail[i + 1].ts {
          assert tail[i] == m[i + 1] && tail[i + 1] == m[i + 2];
        }
      }
      SortedAdjacent(tail);
      forall i, j | 0 <= i < j < |m| ensures !Less(m[j], m[i]) {
        if i > 0 {
          assert m[i] == tail[i - 1] && m[j] == tail[j - 1];
        } else if j > 1 {
          assert m[1] == tail[0] && m[j] == tail[j - 1];
        }
      }
    }
  }

  /** Swap: positions i and j trade places; nothing else moves. */
  method Swap(m: array<WsMessage>, i: int, j: int)
    requires 0 <= i < m.Length && 0 <= j < m.Length
    modifies m
    ensures m[..] == old(m[..])[i := old(m[j])][j := old(m[i])]
    ensures multiset(m[..]) == multiset(old(m[..]))
  {
    m[i], m[j] := m[j], m[i];
  }

  // ---------------------------------------------------------------------------
  // The client list

  /** The position of the first occurrence of `c` from `k` on, or -1. */
  function IndexOf(s: seq<Conn>, c: Conn, k: nat): (i: int)
    requires k <= |s|
    decreases |s| - k
    ensures i == -1 || (k <= i < |s| && s[i] == c && c !in s[k..i])
    ensures i == -1 <==> c !in s[k..]
  {
    if k == |s| then -1
    else if s[k] == c then k
    else
      var i := IndexOf(s, c, k + 1);
      assert s[k..] == [s[k]] + s[k + 1..];
      assert i != -1 ==> s[k..i] == [s[k]] + s[k + 1..i];
      i
  }

  /** The client list with the first occurrence of `c` taken out. */
  function RemoveFirst(s: seq<Conn>, c: Conn): (r: seq<Conn>)
    ensures c !in s ==> r == s
    ensures c in s ==> |r| == |s| - 1 && multiset(r) == multiset(s) - multiset{c}
  {
    var i := IndexOf(s, c, 0);
    assert s[0..] == s;
    if i == -1 then s
    else
      assert s == s[..i] + [s[i]] + s[i + 1..];
      s[..i] + s[i + 1..]
  }

  /** Removing a present connection takes out its first copy: the others
      keep their order around it, and none stood before it. */
  lemma RemoveFirstSpec(s: seq<Conn>, c: Conn)
    ensures c in s ==>
      exists i | 0 <= i < |s| :: s[i] == c && c !in s[..i] && RemoveFirst(s, c) == s[..i] + s[i + 1..]
  {
    assert s[0..] == s;
    var i := IndexOf(s, c, 0);
    if i != -1 {
      assert s[0..i] == s[..i];
    }
  }

  /** The clients kept by a ping round: those whose ping succeeded, in list
      order (see KeptMembers). */
  function Kept(s: seq<Conn>, pingOk: Conn -> bool): (r: seq<Conn>)
    ensures |r| <= |s|
  {
    if s == [] then [] else Kept(s[..|s| - 1], pingOk) + (if pingOk(s[|s| - 1]) then [s[|s| - 1]] else [])
  }

  /** A client is kept exactly when it was in the list and its ping
      succeeded. */
  lemma {:induction false} KeptMembers(s: seq<Conn>, pingOk: Conn -> bool, c: Conn)
    ensures c in Kept(s, pingOk) <==> c in s && pingOk(c)
    decreases |s|
  {
    if s != [] {
      var init := s[..|s| - 1];
      KeptMembers(init, pingOk, c);
      assert s == init + [s[|s| - 1]];
    }
  }

  /** The clients dropped by a ping round, in list order. */
  function Dropped(s: seq<Conn>, pingOk: Conn -> bool): (r: seq<Conn>)
    ensures forall c | c in r :: c in s && !pingOk(c)
  {
    if s == [] then [] else Dropped(s[..|s| - 1], pingOk) + (if pingOk(s[|s| - 1]) then [] else [s[|s| - 1]])
  }

  /** A round in which no ping fails keeps the list exactly as it was, order
      included; one in which some ping fails shortens it. */
  lemma KeptAll(s: seq<Conn>, pingOk: Conn -> bool)
    ensures |Kept(s, pingOk)| == |s| <==> forall c | c in s :: pingOk(c)
    ensures |Kept(s, pingOk)| == |s| ==> Kept(s, pingOk) == s
  {
    if forall c | c in s :: pingOk(c) {
      assert forall i | 0 <= i < |s| :: s[i] in s;
      KeptEvery(s, pingOk);
    } else {
      var c :| c in s && !pingOk(c);
      KeptShorter(s, pingOk, c);
    }
  }

  lemma {:induction false} KeptEvery(s: seq<Conn>, pingOk: Conn -> bool)
    requires forall i | 0 <= i < |s| :: pingOk(s[i])
    ensures Kept(s, pingOk) == s
    decreases |s|
  {
    if s != [] {
      var init := s[..|s| - 1];
      assert forall i | 0 <= i < |init| :: init[i] == s[i];
      KeptEvery(init, pingOk);
      assert pingOk(s[|s| - 1]);
      assert s == init + [s[|s| - 1]];
    }
  }

  lemma {:induction false} KeptShorter(s: seq<Conn>, pingOk: Conn -> bool, c: Conn)
    requires c in s && !pingOk(c)
    ensures |Kept(s, pingOk)| < |s|
    decreases |s|
  {
    var init := s[..|s| - 1];
    assert s == init + [s[|s| - 1]];
    if s[|s| - 1] != c {
      assert c in init;
      KeptShorter(init, pingOk, c);
    }
  }

  /** Every client of a round is either kept or dropped: the two lists
      together are a rearrangement of the old one. */
  lemma {:induction false} KeptDroppedSplit(s: seq<Conn>, pingOk: Conn -> bool)
    ensures multiset(Kept(s, pingOk)) + multiset(Dropped(s, pingOk)) == multiset(s)
    decreases |s|
  {
    if s != [] {
      var init := s[..|s| - 1];
      KeptDroppedSplit(init, pingOk);
      assert s == init + [s[|s| - 1]];
    }
  }

  /** One frame written per client, in list order. */
  function Fanout(s: seq<Conn>, message: WsMessage): (r: seq<(Conn, WsMessage)>)
    ensures |r| == |s| && forall i | 0 <= i < |s| :: r[i] == (s[i], message)
  {
    if s == [] then [] else Fanout(s[..|s| - 1], message) + [(s[|s| - 1], message)]
  }

  /** The ping loop over the clients: those whose ping fails, in order, and
      the others, in order. */
  method Ping(cs: seq<Conn>, pingOk: Conn -> bool) returns (kept: seq<Conn>, dropped: seq<Conn>)
    ensures kept == Kept(cs, pingOk) && dropped == Dropped(cs, pingOk)
  {
    kept, dropped := [], [];
    var i := 0;
    while i < |cs|
      invariant 0 <= i <= |cs|
      invariant kept == Kept(cs[..i], pingOk) && dropped == Dropped(cs[..i], pingOk)
    {
      assert cs[..i + 1][..i] == cs[..i];
      if !pingOk(cs[i]) {
        dropped := dropped + [cs[i]];
      } else {
        kept := kept + [cs[i]];
      }
      i := i + 1;
    }
    assert cs[..i] == cs;
  }

  /** wsHandler: the connected clients, guarded by its mutex (each method
      below is one locked section). `closed` records the connections closed,
      `written` the frames written, both in order. */
  class Handler {
    var clients: seq<Conn>
    var closed: seq<Conn>
    var written: seq<(Conn, WsMessage)>

    /** newWSHandler: no clients yet. */
    constructor()
      ensures clients == [] && closed == [] && written == []
    {
      clients := [];
      closed := [];
      written := [];
    }

    /** ServeHTTP, once the upgrade succeeded: the new connection joins the
        end of the list. */
    method ServeHTTP(conn: Conn)
      modifies this`clients
      ensures clients == old(clients) + [conn]
    {
      clients := clients + [conn];
    }

    /** The end of readLoop: the connection is closed and its first
        occurrence leaves the list. */
    method ReadLoopExit(conn: Conn)
      modifies this`clients, this`closed
      ensures clients == RemoveFirst(old(clients), conn)
      ensures closed == old(closed) + [conn]
    {
      closed := closed + [conn];
      var client := -1;
      var i := 0;
      while i < |clients|
        invariant 0 <= i <= |clients|
        invariant client == -1 && conn !in clients[..i]
      {
        if clients[i] == conn {
          client := i;
          break;
        }
        i := i + 1;
      }
      assert clients[0..] == clients;
      if client >= 0 {
        assert clients[..client] == clients[0..client];
        clients := clients[..client] + clients[client + 1..];
      }
    }

    /** A message from the channel: written to every client in turn. */
    method Broadcast(message: WsMessage)
      modifies this`written
      ensures written == old(written) + Fanout(clients, message)
    {
      var i := 0;
      while i < |clients|
        invariant 0 <= i <= |clients|
        invariant written == old(written) + Fanout(clients[..i], message)
      {
        assert clients[..i + 1][..i] == clients[..i];
        written := written + [(clients[i], message)];
        i := i + 1;
      }
      assert clients[..i] == clients;
    }

    /** A ping tick: clients whose ping fails are closed, the others are kept
        in order; the list is replaced only when it shrank. */
    method PingTick(pingOk: Conn -> bool)
      modifies this`clients, this`closed
      ensures clients == Kept(old(clients), pingOk)
      ensures closed == old(closed) + Dropped(old(clients), pingOk)
    {
      var cs := clients;
      var kept, dropped := Ping(cs, pingOk);
      closed := closed + dropped;
      if |kept| != |cs| {
        clients := kept;
      } else {
        KeptAll(cs, pingOk);
      }
    }

    /** Leaving writeLoop: every client is closed and the list emptied. */
    method Teardown()
      modifies this`clients, this`closed
      ensures clients == []
      ensures closed == old(closed) + old(clients)
    {
      var i := 0;
      while i < |clients|
        invariant 0 <= i <= |clients|
        invariant clients == old(clients)
        invariant closed == old(closed) + clients[..i]
      {
        assert clients[..i + 1] == clients[..i] + [clients[i]];
        closed := closed + [clients[i]];
        i := i + 1;
      }
      assert clients[..i] == clients;
      clients := [];
    }
  }
}
