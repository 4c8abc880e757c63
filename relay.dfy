/**
  The relay server of server/index.js: one roster, a JavaScript `Map` from
  connection id to the descriptor that connection announced, and one handler
  per socket event. The runtime runs one handler at a time, so each handler is
  one atomic step on the roster that returns the messages it emits, tagged with
  their scope: `All` for `io.emit`, `Requester` for `socket.emit`.
 */
module Relay {
  import opened Wire

  datatype Scope = All | Requester

  /** What the relay emits. */
  datatype Event =
    | PlayerMove(move: MoveData)
    | PlayerJump(jump: MoveData)
    | PlayerConnected(player: PlayerData)
    | PlayerDisconnected(gone: Id)

  datatype Outgoing = Outgoing(scope: Scope, event: Event)

  /**
    The roster as a JavaScript `Map`: its entries, and its keys in insertion
    order (the order `forEach` visits them in).
   */
  datatype Roster = Roster(players: map<Id, PlayerData>, order: seq<Id>)

  const Empty := Roster(map[], [])

  ghost predicate Distinct(s: seq<Id>)
  {
    forall i, j :: 0 <= i < j < |s| ==> s[i] != s[j]
  }

  /** A `Map` lists each of its keys exactly once in its iteration order. */
  ghost predicate WellFormed(r: Roster)
  {
    && Distinct(r.order)
    && forall k :: k in r.order <==> k in r.players
  }

  /** The relay's own invariant: every descriptor carries its key as its id. */
  ghost predicate Stamped(r: Roster)
  {
    forall k :: k in r.players ==> r.players[k].id == k
  }

  ghost predicate Invariant(r: Roster)
  {
    WellFormed(r) && Stamped(r)
  }

  /** The keys of `s` other than `k`, in the same order. */
  function Without(s: seq<Id>, k: Id): (t: seq<Id>)
    ensures forall x :: x in t <==> x in s && x != k
    ensures Distinct(s) ==> Distinct(t)
    ensures k !in s ==> t == s
  {
    if s == [] then []
    else if s[0] == k then Without(s[1..], k)
    else
      var rest := Without(s[1..], k);
      assert Distinct(s) ==> Distinct(s[1..]) && s[0] !in s[1..];
      [s[0]] + rest
  }

  /**
    `Map.prototype.set`: afterwards `k` holds `v` and every other entry is as
    before; a key already present keeps its place in the order, a new key
    goes last.
   */
  function Set(r: Roster, k: Id, v: PlayerData): (r': Roster)
    ensures k in r'.players && r'.players[k] == v
    ensures forall j :: j != k ==> (j in r'.players <==> j in r.players)
    ensures forall j :: j != k && j in r.players ==> r'.players[j] == r.players[j]
    ensures |r.order| <= |r'.order| <= |r.order| + 1 && r'.order[..|r.order|] == r.order
    ensures WellFormed(r) ==> WellFormed(r')
  {
    Roster(r.players[k := v], if k in r.order then r.order else r.order + [k])
  }

  /**
    `Map.prototype.delete`: afterwards `k` is absent and every other entry is
    as before, in the same relative order; deleting an absent key changes nothing.
   */
  function Delete(r: Roster, k: Id): (r': Roster)
    ensures k !in r'.players && k !in r'.order
    ensures forall j :: j != k ==> (j in r'.players <==> j in r.players)
    ensures forall j :: j != k && j in r.players ==> r'.players[j] == r.players[j]
    ensures WellFormed(r) ==> WellFormed(r')
    ensures WellFormed(r) && k !in r.players ==> r' == r
  {
    Roster(r.players - {k}, Without(r.order, k))
  }

  /** The `playerConnected` that `showPlayers` sends back for one roster entry, if any. */
  function Announce(p: PlayerData, c: Id): seq<Outgoing>
  {
    if p.id != c then [Outgoing(Requester, PlayerConnected(p))] else []
  }

  /**
    What `showPlayers` from connection `c` sends back while `forEach` visits
    the keys `order`: only to the requester, only `playerConnected`, only
    descriptors in the roster, every one whose id is not `c`, and none whose id is.
   */
  function Replay(players: map<Id, PlayerData>, order: seq<Id>, c: Id): (out: seq<Outgoing>)
    requires forall k :: k in order ==> k in players
    ensures |out| <= |order|
    ensures forall m :: m in out ==>
      && m.scope == Requester
      && m.event.PlayerConnected?
      && m.event.player.id != c
      && exists k :: k in order && players[k] == m.event.player
    ensures forall k :: k in order && players[k].id != c ==>
      Outgoing(Requester, PlayerConnected(players[k])) in out
  {
    if order == [] then []
    else Replay(players, order[..|order| - 1], c) + Announce(players[order[|order| - 1]], c)
  }

  /** `forEach` visiting one more key extends the reply by that key's announcement. */
  lemma ReplayStep(players: map<Id, PlayerData>, order: seq<Id>, i: nat, c: Id)
    requires forall k :: k in order ==> k in players
    requires i < |order|
    ensures Replay(players, order[..i + 1], c) == Replay(players, order[..i], c) + Announce(players[order[i]], c)
  {
    assert order[..i + 1][..i] == order[..i];
  }

  /** Both handlers that change the roster keep it well formed and stamped. */
  lemma RosterInvariant(r: Roster, c: Id, data: PlayerData)
    requires Invariant(r)
    ensures Invariant(Set(r, c, data.(id := c)))
    ensures Invariant(Delete(r, c))
  {
  }

  /**
    `newPlayer` sent twice by one connection leaves one entry for it, holding
    the later descriptor, exactly as if only the later one had been sent.
   */
  lemma NewPlayerTwice(r: Roster, c: Id, first: PlayerData, second: PlayerData)
    ensures Set(Set(r, c, first.(id := c)), c, second.(id := c)) == Set(r, c, second.(id := c))
  {
  }

  lemma {:induction false} WithoutAppend(s: seq<Id>, k: Id)
    ensures Without(s + [k], k) == Without(s, k)
  {
    if s == [] {
      assert Without([k][1..], k) == [];
    } else {
      WithoutAppend(s[1..], k);
      assert (s + [k])[1..] == s[1..] + [k];
    }
  }

  /**
    `newPlayer` followed by `disconnect` on the same connection leaves the
    roster as a `disconnect` alone would; on a connection that was not in
    the roster it restores the roster exactly, entries and order.
   */
  lemma NewThenDisconnect(r: Roster, c: Id, data: PlayerData)
    requires WellFormed(r)
    ensures Delete(Set(r, c, data.(id := c)), c) == Delete(r, c)
    ensures c !in r.players ==> Delete(Set(r, c, data.(id := c)), c) == r
  {
    var s := Set(r, c, data.(id := c));
    assert s.players - {c} == r.players - {c};
    if c in r.order {
      assert s.order == r.order;
    } else {
      assert s.order == r.order + [c];
      WithoutAppend(r.order, c);
    }
  }

  function KeysOf(s: seq<Id>): set<Id>
  {
    set x | x in s
  }

  lemma DistinctInit(s: seq<Id>)
    requires Distinct(s) && s != []
    ensures Distinct(s[..|s| - 1]) && s[|s| - 1] !in s[..|s| - 1]
  {
  }

  lemma KeysOfInit(s: seq<Id>)
    requires s != []
    ensures KeysOf(s) == KeysOf(s[..|s| - 1]) + {s[|s| - 1]}
  {
    assert s == s[..|s| - 1] + [s[|s| - 1]];
  }

  lemma AddKeyCount(a: set<Id>, k: Id, c: Id)
    requires k !in a
    ensures |a + {k} - {c}| == |a - {c}| + (if k == c then 0 else 1)
  {
    if k == c {
      assert a + {k} - {c} == a - {c};
    } else {
      assert a + {k} - {c} == (a - {c}) + {k};
    }
  }

  lemma {:induction false} ReplayCountOf(players: map<Id, PlayerData>, s: seq<Id>, c: Id)
    requires Distinct(s)
    requires forall k :: k in s ==> k in players && players[k].id == k
    ensures |Replay(players, s, c)| == |KeysOf(s) - {c}|
  {
    if s != [] {
      var init, last := s[..|s| - 1], s[|s| - 1];
      DistinctInit(s);
      ReplayCountOf(players, init, c);
      KeysOfInit(s);
      AddKeyCount(KeysOf(init), last, c);
    }
  }

  /**
    `showPlayers` from `c` sends exactly one message per roster entry other
    than `c`'s own: with the membership facts of `Replay`, each such entry
    is announced exactly once.
   */
  lemma ReplayCount(r: Roster, c: Id)
    requires Invariant(r)
    ensures |Replay(r.players, r.order, c)| == |r.players.Keys - {c}|
  {
    ReplayCountOf(r.players, r.order, c);
    assert KeysOf(r.order) == r.players.Keys;
  }

  /** `showPlayers` never sends the requester its own descriptor. */
  lemma ReplayOmitsRequester(r: Roster, c: Id)
    requires Invariant(r) && c in r.players
    ensures Outgoing(Requester, PlayerConnected(r.players[c])) !in Replay(r.players, r.order, c)
  {
  }

  /** The `players` map of server/index.js and its connection handlers. */
  class RelayServer {
    var players: map<Id, PlayerData>
    var order: seq<Id>

    function Current(): Roster
      reads this
    {
      Roster(players, order)
    }

    ghost predicate Valid()
      reads this
    {
      Invariant(Current())
    }

    constructor()
      ensures Valid() && Current() == Empty
    {
      players := map[];
      order := [];
    }

    /** `playerMove` is re-emitted verbatim to every connection; the roster is not touched. */
    method OnPlayerMove(data: MoveData) returns (out: seq<Outgoing>)
      ensures out == [Outgoing(All, PlayerMove(data))]
    {
      out := [Outgoing(All, PlayerMove(data))];
    }

    /** `playerJump` is re-emitted verbatim to every connection; the roster is not touched. */
    method OnPlayerJump(data: MoveData) returns (out: seq<Outgoing>)
      ensures out == [Outgoing(All, PlayerJump(data))]
    {
      out := [Outgoing(All, PlayerJump(data))];
    }

    /**
      `newPlayer` from connection `c`: whatever id the client sent, the
      descriptor is stamped with `c`, stored under `c`, and announced to every
      connection, the sender included.
     */
    method OnNewPlayer(c: Id, data: PlayerData) returns (out: seq<Outgoing>)
      requires Valid()
      modifies this
      ensures Valid()
      ensures Current() == Set(old(Current()), c, data.(id := c))
      ensures c in players && players[c].id == c
      ensures out == [Outgoing(All, PlayerConnected(players[c]))]
    {
      var stamped := data.(id := c);
      players := players[c := stamped];
      if c !in order {
        order := order + [c];
      }
      out := [Outgoing(All, PlayerConnected(stamped))];
    }

    /** `disconnect` of connection `c`: announced to every connection, then `c`'s entry is deleted. */
    method OnDisconnect(c: Id) returns (out: seq<Outgoing>)
      requires Valid()
      modifies this
      ensures Valid()
      ensures Current() == Delete(old(Current()), c)
      ensures out == [Outgoing(All, PlayerDisconnected(c))]
    {
      out := [Outgoing(All, PlayerDisconnected(c))];
      players := players - {c};
      order := Without(order, c);
    }

    /**
      `showPlayers` from connection `c`: visits the roster in insertion order
      and sends `c` alone a `playerConnected` for every descriptor whose id is not `c`.
     */
    method OnShowPlayers(c: Id) returns (out: seq<Outgoing>)
      requires Valid()
      ensures out == Replay(players, order, c)
    {
      out := [];
      var i := 0;
      while i < |order|
        invariant 0 <= i <= |order|
        invariant out == Replay(players, order[..i], c)
      {
        var player := players[order[i]];
        if player.id != c {
          out := out + [Outgoing(Requester, PlayerConnected(player))];
        }
        ReplayStep(players, order, i, c);
        i := i + 1;
      }
      assert order[..i] == order;
    }
  }

  /** A roster holding only the requester replays nothing to it. */
  lemma ReplayAlone(players: map<Id, PlayerData>, a: Id)
    requires a in players && players[a].id == a
    ensures Replay(players, [a], a) == []
  {
    assert [a][..0] == [];
  }

  /** A roster of `a` then `b` replays `a`'s descriptor alone to `b`. */
  lemma ReplayOfFirst(players: map<Id, PlayerData>, a: Id, b: Id)
    requires a in players && b in players && players[a].id == a && players[b].id == b && a != b
    ensures Replay(players, [a, b], b) == [Outgoing(Requester, PlayerConnected(players[a]))]
  {
    assert [a, b][..1] == [a];
    assert [a][..0] == [];
  }

  /** A roster of `a` then `b` without `a` is `b` alone. */
  lemma DeleteFirstOfTwo(a: Id, b: Id, pa: PlayerData, pb: PlayerData)
    requires a != b
    ensures Delete(Roster(map[a := pa, b := pb], [a, b]), a) == Roster(map[b := pb], [b])
  {
    assert [a, b][1..] == [b] && [b][1..] == [];
    assert map[a := pa, b := pb] - {a} == map[b := pb];
  }

  /**
    Two connections `a` and `b` join a fresh relay in that order; `a` asks for
    the roster between the two joins and hears of nobody.
   */
  method JoinTwo(a: Id, b: Id, da: PlayerData, db: PlayerData)
    returns (relay: RelayServer, replayToA: seq<Outgoing>, joinOfB: seq<Outgoing>)
    requires a != b
    ensures fresh(relay) && relay.Valid()
    ensures relay.Current() == Roster(map[a := da.(id := a), b := db.(id := b)], [a, b])
    ensures replayToA == []
    ensures joinOfB == [Outgoing(All, PlayerConnected(db.(id := b)))]
  {
    relay := new RelayServer();
    var joinOfA := relay.OnNewPlayer(a, da);
    assert relay.order == [a] && relay.players == map[a := da.(id := a)];
    ReplayAlone(relay.players, a);
    replayToA := relay.OnShowPlayers(a);
    joinOfB := relay.OnNewPlayer(b, db);
    assert relay.order == [a, b] && relay.players == map[a := da.(id := a), b := db.(id := b)];
  }

  /**
    Two connections `a` and `b` on a fresh relay: `a` joins and asks for the
    roster (nobody else yet); `b` joins, which every connection hears; `b` asks
    for the roster and hears of `a` alone; `a` leaves, which every connection
    hears, and the roster holds `b` alone.
   */
  method TwoClientScenario(a: Id, b: Id, da: PlayerData, db: PlayerData)
    returns (replayToA: seq<Outgoing>, joinOfB: seq<Outgoing>, replayToB: seq<Outgoing>, leaveOfA: seq<Outgoing>,
             relay: RelayServer)
    requires a != b
    ensures replayToA == []
    ensures joinOfB == [Outgoing(All, PlayerConnected(db.(id := b)))]
    ensures replayToB == [Outgoing(Requester, PlayerConnected(da.(id := a)))]
    ensures leaveOfA == [Outgoing(All, PlayerDisconnected(a))]
    ensures relay.Current() == Roster(map[b := db.(id := b)], [b])
  {
    relay, replayToA, joinOfB := JoinTwo(a, b, da, db);
    ReplayOfFirst(relay.players, a, b);
    replayToB := relay.OnShowPlayers(b);
    DeleteFirstOfTwo(a, b, da.(id := a), db.(id := b));
    leaveOfA := relay.OnDisconnect(a);
  }
}
