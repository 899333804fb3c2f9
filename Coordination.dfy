/**
 The session coordinator of server.js as a value: the room registry
 `gameRooms`, the per-connection closure variables `playerId` and `roomCode`,
 which connections are still open, and every `ws.send` made so far. Each
 handler of the connection callback is a function from one such state to the
 next; the class in Server.dfy runs the same handlers in place and is proved
 to agree with these functions.
 */
module Coordination {
  import opened Wrappers
  import opened Protocol
  import opened Ascii

  /** A connection (`ws`); the transport behind it is not modelled. */
  type ConnId = nat

  /** An entry `{ id: playerId, ws }` of a room's `players` list. */
  datatype Player = Player(id: string, conn: ConnId)

  /** A registry entry `{ players, scores }`; slot order is join order (host first). */
  datatype Room = Room(players: seq<Player>, scores: ScorePair)

  /** The closure variables of one connection: `playerId` (minted once by
      `uuidv4`) and `roomCode` (`null` until it creates or joins a room). */
  datatype Session = Session(playerId: string, roomCode: Option<string>)

  /** One call of `ws.send`: the receiving connection and the message. */
  datatype Delivery = Delivery(to: ConnId, msg: ServerMsg)

  datatype Server = Server(
    rooms: map<string, Room>,
    sessions: map<ConnId, Session>,
    open: set<ConnId>,
    outbox: seq<Delivery>)

  /** `const gameRooms = new Map()` before any connection. */
  function Initial(): Server {
    Server(map[], map[], {}, [])
  }

  // ---------------------------------------------------------------------
  // The `players.forEach` loops, as the sequence of sends each one makes
  // ---------------------------------------------------------------------

  /** `players.forEach(player => player.ws.send(msg))`. */
  function Broadcast(ps: seq<Player>, msg: ServerMsg): (r: seq<Delivery>)
    ensures |r| == |ps|
    ensures forall d :: d in r ==> d.msg == msg
  {
    if ps == [] then []
    else Broadcast(ps[..|ps| - 1], msg) + [Delivery(ps[|ps| - 1].conn, msg)]
  }

  /** The relay loop: send to each player whose id is not the sender's. */
  function RelayToOthers(ps: seq<Player>, sender: string, msg: ServerMsg): (r: seq<Delivery>)
    ensures |r| <= |ps|
    ensures forall d :: d in r ==> d.msg == msg
  {
    if ps == [] then []
    else
      var last := ps[|ps| - 1];
      RelayToOthers(ps[..|ps| - 1], sender, msg)
      + (if last.id != sender then [Delivery(last.conn, msg)] else [])
  }

  /** The close loop: `player_disconnected` to each other player whose
      socket is still OPEN. */
  function NotifyOthers(ps: seq<Player>, sender: string, open: set<ConnId>): (r: seq<Delivery>)
    ensures |r| <= |ps|
    ensures forall d :: d in r ==> d.msg == PlayerDisconnected && d.to in open
  {
    if ps == [] then []
    else
      var last := ps[|ps| - 1];
      NotifyOthers(ps[..|ps| - 1], sender, open)
      + (if last.id != sender && last.conn in open then [Delivery(last.conn, PlayerDisconnected)] else [])
  }

  /** The `game_start` loop: slot `index` gets `playerNumber: index + 1`. */
  function GameStarts(ps: seq<Player>, total: int): (r: seq<Delivery>)
    ensures |r| == |ps|
    ensures forall d :: d in r ==> d.msg.GameStart? && d.msg.totalPlayers == total && 1 <= d.msg.playerNumber <= |ps|
  {
    if ps == [] then []
    else GameStarts(ps[..|ps| - 1], total) + [Delivery(ps[|ps| - 1].conn, GameStart(|ps|, total))]
  }

  // ---------------------------------------------------------------------
  // The handlers
  // ---------------------------------------------------------------------

  /** `wss.on('connection')`: a fresh connection with a minted `playerId`
      and no room. */
  function OnConnect(s: Server, c: ConnId, playerId: string): (r: Server)
    requires c !in s.sessions
    ensures r.rooms == s.rooms && r.outbox == s.outbox && r.open == s.open + {c}
    ensures r.sessions.Keys == s.sessions.Keys + {c} && r.sessions[c] == Session(playerId, None)
    ensures forall k :: k in s.sessions ==> r.sessions[k] == s.sessions[k]
  {
    s.(sessions := s.sessions[c := Session(playerId, None)], open := s.open + {c})
  }

  /** `create_room`, with `code` the value `generateRoomCode` returned. */
  function OnCreateRoom(s: Server, c: ConnId, code: string): (r: Server)
    requires c in s.sessions
    ensures r.open == s.open && r.sessions.Keys == s.sessions.Keys
    ensures code in r.rooms && r.sessions[c].roomCode == Some(code)
    ensures |r.outbox| == |s.outbox| + 1 && r.outbox[..|s.outbox|] == s.outbox && r.outbox[|s.outbox|].to == c
  {
    var pid := s.sessions[c].playerId;
    s.(rooms := s.rooms[code := Room([Player(pid, c)], ScorePair(0, 0))],
       sessions := s.sessions[c := Session(pid, Some(code))],
       outbox := s.outbox + [Delivery(c, RoomCreated(code, pid))])
  }

  /** `join_room` with the code the client supplied. */
  function OnJoinRoom(s: Server, c: ConnId, requested: string): (r: Server)
    requires c in s.sessions
    ensures r.open == s.open && r.sessions.Keys == s.sessions.Keys && r.rooms.Keys == s.rooms.Keys
    ensures |r.outbox| > |s.outbox| && r.outbox[..|s.outbox|] == s.outbox && r.outbox[|s.outbox|].to == c
    ensures r.sessions != s.sessions ==> r.sessions[c].roomCode == Some(Upper(requested))
  {
    var pid := s.sessions[c].playerId;
    var key := Upper(requested);
    if key !in s.rooms then
      s.(outbox := s.outbox + [Delivery(c, Error(RoomNotFound))])
    else if |s.rooms[key].players| >= 2 then
      s.(outbox := s.outbox + [Delivery(c, Error(RoomIsFull))])
    else
      var players := s.rooms[key].players + [Player(pid, c)];
      s.(rooms := s.rooms[key := s.rooms[key].(players := players)],
         sessions := s.sessions[c := Session(pid, Some(key))],
         outbox := s.outbox + [Delivery(c, JoinConfirmed(key))] + GameStarts(players, |players|))
  }

  /** `gameRooms.get(roomCode)` for the connection's current `roomCode`. */
  function CurrentRoom(s: Server, c: ConnId): (r: Option<string>)
    requires c in s.sessions
    ensures r.Some? <==> s.sessions[c].roomCode.Some? && s.sessions[c].roomCode.value in s.rooms
    ensures r.Some? ==> r == s.sessions[c].roomCode
  {
    match s.sessions[c].roomCode
    case Some(code) => if code in s.rooms then Some(code) else None
    case None => None
  }

  /** `paddle_move` and `ball_update`: relay `msg` to the sender's room mates. */
  function OnRelay(s: Server, c: ConnId, msg: ServerMsg): (r: Server)
    requires c in s.sessions
    ensures r.rooms == s.rooms && r.sessions == s.sessions && r.open == s.open
    ensures |r.outbox| >= |s.outbox| && r.outbox[..|s.outbox|] == s.outbox
    ensures forall d :: d in r.outbox[|s.outbox|..] ==> d.msg == msg
  {
    match CurrentRoom(s, c)
    case None => s
    case Some(code) =>
      s.(outbox := s.outbox + RelayToOthers(s.rooms[code].players, s.sessions[c].playerId, msg))
  }

  /** `score_update`: store the pair and echo it to every player. */
  function OnScoreUpdate(s: Server, c: ConnId, scores: ScorePair): (r: Server)
    requires c in s.sessions
    ensures r.sessions == s.sessions && r.open == s.open && r.rooms.Keys == s.rooms.Keys
    ensures |r.outbox| >= |s.outbox| && r.outbox[..|s.outbox|] == s.outbox
    ensures forall d :: d in r.outbox[|s.outbox|..] ==> d.msg == ScoreSync(scores)
  {
    match CurrentRoom(s, c)
    case None => s
    case Some(code) =>
      var room := s.rooms[code];
      s.(rooms := s.rooms[code := room.(scores := scores)],
         outbox := s.outbox + Broadcast(room.players, ScoreSync(scores)))
  }

  /** The `message` callback's switch. `generated` is what `generateRoomCode`
      returns if the message is `create_room`; other cases ignore it. */
  function OnMessage(s: Server, c: ConnId, msg: ClientMsg, generated: string): (r: Server)
    requires c in s.sessions
    ensures r.open == s.open && r.sessions.Keys == s.sessions.Keys
    ensures forall k :: k in s.sessions ==> r.sessions[k].playerId == s.sessions[k].playerId
    ensures r.rooms.Keys <= s.rooms.Keys + {generated}
    ensures |r.outbox| >= |s.outbox| && r.outbox[..|s.outbox|] == s.outbox
  {
    match msg
    case CreateRoom => OnCreateRoom(s, c, generated)
    case JoinRoom(code) => OnJoinRoom(s, c, code)
    case PaddleMove(p) => OnRelay(s, c, OpponentMove(p))
    case BallUpdate(p, d) => OnRelay(s, c, BallSync(p, d))
    case ScoreUpdate(scores) => OnScoreUpdate(s, c, scores)
    case UnknownType(_) => s
  }

  /** `ws.on('close')`. The socket is CLOSED when the callback runs. A room is
      torn down only when `roomCode` is truthy, i.e. a non-empty string. */
  function OnClose(s: Server, c: ConnId): (r: Server)
    requires c in s.sessions
    ensures r.sessions == s.sessions && r.open == s.open - {c} && r.rooms.Keys <= s.rooms.Keys
    ensures |r.outbox| >= |s.outbox| && r.outbox[..|s.outbox|] == s.outbox
    ensures forall d :: d in r.outbox[|s.outbox|..] ==> d.msg == PlayerDisconnected && d.to != c && d.to in r.open
  {
    var open := s.open - {c};
    var pid := s.sessions[c].playerId;
    match s.sessions[c].roomCode
    case Some(code) =>
      if code != "" && code in s.rooms then
        s.(open := open,
           rooms := s.rooms - {code},
           outbox := s.outbox + NotifyOthers(s.rooms[code].players, pid, open))
      else s.(open := open)
    case None => s.(open := open)
  }

  // ---------------------------------------------------------------------
  // The invariant the handlers keep
  // ---------------------------------------------------------------------

  /** A registered room holds one or two players, each of them an entry made
      by the connection whose `playerId` it carries. */
  ghost predicate RoomWellFormed(r: Room, sessions: map<ConnId, Session>) {
    && 1 <= |r.players| <= 2
    && forall p :: p in r.players ==> p.conn in sessions && sessions[p.conn].playerId == p.id
  }

  ghost predicate Inv(s: Server) {
    && s.open <= s.sessions.Keys
    && forall code :: code in s.rooms ==> IsGeneratedCode(code) && RoomWellFormed(s.rooms[code], s.sessions)
  }

  // ---------------------------------------------------------------------
  // What each fan-out loop sends
  // ---------------------------------------------------------------------

  /** Every player gets the message once, in slot order. */
  lemma {:induction false} BroadcastReachesEverySlot(ps: seq<Player>, msg: ServerMsg)
    ensures |Broadcast(ps, msg)| == |ps|
    ensures forall i :: 0 <= i < |ps| ==> Broadcast(ps, msg)[i] == Delivery(ps[i].conn, msg)
  {
    if ps != [] {
      BroadcastReachesEverySlot(ps[..|ps| - 1], msg);
    }
  }

  /** Slot `i` is told it is player `i + 1` of `total`, in slot order. */
  lemma {:induction false} GameStartsNumberSlots(ps: seq<Player>, total: int)
    ensures |GameStarts(ps, total)| == |ps|
    ensures forall i :: 0 <= i < |ps| ==> GameStarts(ps, total)[i] == Delivery(ps[i].conn, GameStart(i + 1, total))
  {
    if ps != [] {
      GameStartsNumberSlots(ps[..|ps| - 1], total);
    }
  }

  /** A relay reaches exactly the connections of players whose id differs
      from the sender's, with the message unchanged. */
  lemma {:induction false} RelayReachesExactlyOthers(ps: seq<Player>, sender: string, msg: ServerMsg)
    ensures forall d :: d in RelayToOthers(ps, sender, msg) <==>
      d.msg == msg && exists i :: 0 <= i < |ps| && ps[i].id != sender && ps[i].conn == d.to
  {
    if ps != [] {
      var init := ps[..|ps| - 1];
      RelayReachesExactlyOthers(init, sender, msg);
      forall d: Delivery | d.msg == msg && exists i :: 0 <= i < |ps| && ps[i].id != sender && ps[i].conn == d.to
        ensures d in RelayToOthers(ps, sender, msg)
      {
        var i :| 0 <= i < |ps| && ps[i].id != sender && ps[i].conn == d.to;
        if i < |ps| - 1 {
          assert init[i] == ps[i];
        }
      }
    }
  }

  /** The close loop reaches exactly the open connections of players whose
      id differs from the closing connection's. */
  lemma {:induction false} NotifyReachesOpenOthers(ps: seq<Player>, sender: string, open: set<ConnId>)
    ensures forall d :: d in NotifyOthers(ps, sender, open) <==>
      d.msg == PlayerDisconnected && exists i :: 0 <= i < |ps| && ps[i].id != sender && ps[i].conn in open && ps[i].conn == d.to
  {
    if ps != [] {
      var init := ps[..|ps| - 1];
      NotifyReachesOpenOthers(init, sender, open);
      forall d: Delivery | d.msg == PlayerDisconnected && exists i :: 0 <= i < |ps| && ps[i].id != sender && ps[i].conn in open && ps[i].conn == d.to
        ensures d in NotifyOthers(ps, sender, open)
      {
        var i :| 0 <= i < |ps| && ps[i].id != sender && ps[i].conn in open && ps[i].conn == d.to;
        if i < |ps| - 1 {
          assert init[i] == ps[i];
        }
      }
    }
  }

  // ---------------------------------------------------------------------
  // The handlers keep the invariant
  // ---------------------------------------------------------------------

  lemma ConnectPreservesInv(s: Server, c: ConnId, playerId: string)
    requires Inv(s) && c !in s.sessions
    ensures Inv(OnConnect(s, c, playerId))
  {
    var t := OnConnect(s, c, playerId);
    forall code | code in t.rooms
      ensures RoomWellFormed(t.rooms[code], t.sessions)
    {
      assert RoomWellFormed(s.rooms[code], s.sessions);
    }
  }

  lemma CreatePreservesInv(s: Server, c: ConnId, code: string)
    requires Inv(s) && c in s.sessions && IsGeneratedCode(code)
    ensures Inv(OnCreateRoom(s, c, code))
  {
    var t := OnCreateRoom(s, c, code);
    forall k | k in t.rooms
      ensures IsGeneratedCode(k) && RoomWellFormed(t.rooms[k], t.sessions)
    {
      if k != code {
        assert RoomWellFormed(s.rooms[k], s.sessions);
      }
    }
  }

  lemma JoinPreservesInv(s: Server, c: ConnId, requested: string)
    requires Inv(s) && c in s.sessions
    ensures Inv(OnJoinRoom(s, c, requested))
  {
    var t := OnJoinRoom(s, c, requested);
    forall k | k in t.rooms
      ensures IsGeneratedCode(k) && RoomWellFormed(t.rooms[k], t.sessions)
    {
      assert RoomWellFormed(s.rooms[k], s.sessions);
    }
  }

  /** Every message keeps one or two players per room, provided the code
      generator yields codes of its documented shape. */
  lemma MessagePreservesInv(s: Server, c: ConnId, msg: ClientMsg, generated: string)
    requires Inv(s) && c in s.sessions && IsGeneratedCode(generated)
    ensures Inv(OnMessage(s, c, msg, generated))
  {
    match msg
    case CreateRoom => CreatePreservesInv(s, c, generated);
    case JoinRoom(code) => JoinPreservesInv(s, c, code);
    case PaddleMove(_) =>
    case BallUpdate(_, _) =>
    case ScoreUpdate(scores) =>
      var t := OnScoreUpdate(s, c, scores);
      forall k | k in t.rooms
        ensures IsGeneratedCode(k) && RoomWellFormed(t.rooms[k], t.sessions)
      {
        assert RoomWellFormed(s.rooms[k], s.sessions);
      }
    case UnknownType(_) =>
  }

  lemma ClosePreservesInv(s: Server, c: ConnId)
    requires Inv(s) && c in s.sessions
    ensures Inv(OnClose(s, c))
  {
  }

  // ---------------------------------------------------------------------
  // create_room
  // ---------------------------------------------------------------------

  /** `create_room` registers the code with the sender as sole player and
      scores [0, 0], points the sender's `roomCode` at it, and replies to the
      sender alone. An entry already under that code is replaced. */
  lemma CreateRoomRegistersHost(s: Server, c: ConnId, code: string)
    requires c in s.sessions
    ensures var t := OnCreateRoom(s, c, code);
      var pid := s.sessions[c].playerId;
      && t.rooms.Keys == s.rooms.Keys + {code}
      && t.rooms[code] == Room([Player(pid, c)], ScorePair(0, 0))
      && (forall k :: k in s.rooms && k != code ==> t.rooms[k] == s.rooms[k])
      && t.sessions == s.sessions[c := Session(pid, Some(code))]
      && t.open == s.open
      && t.outbox == s.outbox + [Delivery(c, RoomCreated(code, pid))]
  {
  }

  /** There is no collision check: when the generated code is already
      registered, the room under it is replaced, its players drop out of the
      registry, and their sessions still name the code. */
  lemma CreateCollisionEvictsPlayers(s: Server, c: ConnId, code: string, p: Player)
    requires c in s.sessions && code in s.rooms && p in s.rooms[code].players && p.conn != c
    requires p.conn in s.sessions && s.sessions[p.conn].roomCode == Some(code)
    ensures var t := OnCreateRoom(s, c, code);
      && p !in t.rooms[code].players
      && t.sessions[p.conn].roomCode == Some(code)
  {
  }

  /** A second `create_room` from the same connection leaves the first room
      registered with that connection in it, and closing the connection then
      removes only the second room: the first stays in the registry. */
  lemma {:induction false} SecondCreateOrphansFirstRoom(s: Server, c: ConnId, first: string, second: string)
    requires c in s.sessions && first != second && second != ""
    ensures var t := OnClose(OnCreateRoom(OnCreateRoom(s, c, first), c, second), c);
      && first in t.rooms
      && t.rooms[first].players == [Player(s.sessions[c].playerId, c)]
      && second !in t.rooms
      && c !in t.open
  {
    var t1 := OnCreateRoom(s, c, first);
    var t2 := OnCreateRoom(t1, c, second);
    assert t2.sessions[c].roomCode == Some(second);
    assert first in t2.rooms && t2.rooms[first] == t1.rooms[first];
  }

  // ---------------------------------------------------------------------
  // join_room
  // ---------------------------------------------------------------------

  /** The lookup uses only the upper-cased code: codes that differ in case
      behave identically. */
  lemma JoinIgnoresCase(s: Server, c: ConnId, a: string, b: string)
    requires c in s.sessions && Upper(a) == Upper(b)
    ensures OnJoinRoom(s, c, a) == OnJoinRoom(s, c, b)
  {
  }

  /** A lower-case variant of a registered code finds that room. */
  lemma JoinLowercaseFindsRoom(s: Server, c: ConnId, code: string)
    requires Inv(s) && c in s.sessions && code in s.rooms
    ensures OnJoinRoom(s, c, Lower(code)) == OnJoinRoom(s, c, code)
    ensures OnJoinRoom(s, c, Lower(code)).outbox[|s.outbox|] != Delivery(c, Error(RoomNotFound))
  {
    GeneratedCodeIsUpper(code);
  }

  /** An unregistered code: `error{"Room not found"}` to the sender only;
      registry and sessions unchanged. */
  lemma JoinUnknownCodeFails(s: Server, c: ConnId, requested: string)
    requires c in s.sessions && Upper(requested) !in s.rooms
    ensures var t := OnJoinRoom(s, c, requested);
      && t.rooms == s.rooms && t.sessions == s.sessions && t.open == s.open
      && t.outbox == s.outbox + [Delivery(c, Error(RoomNotFound))]
  {
  }

  /** A room with two (or more) players: `error{"Room is full"}` to the
      sender only; the room's players, and everything else, unchanged. */
  lemma JoinFullRoomFails(s: Server, c: ConnId, requested: string)
    requires c in s.sessions && Upper(requested) in s.rooms
    requires |s.rooms[Upper(requested)].players| >= 2
    ensures var t := OnJoinRoom(s, c, requested);
      && t.rooms == s.rooms && t.sessions == s.sessions && t.open == s.open
      && t.outbox == s.outbox + [Delivery(c, Error(RoomIsFull))]
  {
  }

  /** A successful join appends the sender after the host, stores the
      upper-cased code as its `roomCode`, confirms to the sender first and
      then sends `game_start` to the host as player 1 of 2 and to the sender
      as player 2 of 2. */
  lemma JoinAppendsGuest(s: Server, c: ConnId, requested: string)
    requires Inv(s) && c in s.sessions
    requires Upper(requested) in s.rooms && |s.rooms[Upper(requested)].players| < 2
    ensures var key := Upper(requested);
      var t := OnJoinRoom(s, c, requested);
      var pid := s.sessions[c].playerId;
      var host := s.rooms[key].players[0];
      && t.rooms.Keys == s.rooms.Keys
      && t.rooms[key] == Room([host, Player(pid, c)], s.rooms[key].scores)
      && (forall k :: k in s.rooms && k != key ==> t.rooms[k] == s.rooms[k])
      && t.sessions == s.sessions[c := Session(pid, Some(key))]
      && t.open == s.open
      && t.outbox == s.outbox + [Delivery(c, JoinConfirmed(key)),
                                 Delivery(host.conn, GameStart(1, 2)),
                                 Delivery(c, GameStart(2, 2))]
  {
    var key := Upper(requested);
    assert RoomWellFormed(s.rooms[key], s.sessions);
    var pid := s.sessions[c].playerId;
    var players := s.rooms[key].players + [Player(pid, c)];
    assert players == [s.rooms[key].players[0], Player(pid, c)];
    GameStartsNumberSlots(players, 2);
  }

  /** Nothing stops the creator from joining its own room: it then fills
      both slots and is sent both `game_start` messages. */
  lemma CreatorMayJoinOwnRoom(s: Server, c: ConnId, code: string)
    requires c in s.sessions && Upper(code) == code
    ensures var t := OnJoinRoom(OnCreateRoom(s, c, code), c, code);
      var pid := s.sessions[c].playerId;
      && t.rooms[code].players == [Player(pid, c), Player(pid, c)]
      && t.outbox == s.outbox + [Delivery(c, RoomCreated(code, pid)), Delivery(c, JoinConfirmed(code)),
                                 Delivery(c, GameStart(1, 2)), Delivery(c, GameStart(2, 2))]
  {
    var pid := s.sessions[c].playerId;
    GameStartsNumberSlots([Player(pid, c), Player(pid, c)], 2);
  }

  // ---------------------------------------------------------------------
  // paddle_move, ball_update, score_update
  // ---------------------------------------------------------------------

  /** The connections a relay from `c` may reach: those of players of c's
      current room whose id differs from c's. */
  ghost predicate IsPeer(s: Server, c: ConnId, to: ConnId)
    requires c in s.sessions
  {
    match CurrentRoom(s, c)
    case None => false
    case Some(code) =>
      exists i :: 0 <= i < |s.rooms[code].players| &&
        s.rooms[code].players[i].id != s.sessions[c].playerId && s.rooms[code].players[i].conn == to
  }

  /** `paddle_move` and `ball_update` change no state, send the payload
      unchanged to exactly the sender's peers, and never to the sender
      itself; with no registered room they send nothing. */
  lemma RelayReachesOnlyPeers(s: Server, c: ConnId, msg: ServerMsg)
    requires Inv(s) && c in s.sessions
    ensures var t := OnRelay(s, c, msg);
      && t.rooms == s.rooms && t.sessions == s.sessions && t.open == s.open
      && t.outbox[..|s.outbox|] == s.outbox
      && (forall d :: d in t.outbox[|s.outbox|..] <==> d.msg == msg && IsPeer(s, c, d.to))
      && (forall d :: d in t.outbox[|s.outbox|..] ==> d.to != c)
      && (CurrentRoom(s, c) == None ==> t == s)
  {
    var t := OnRelay(s, c, msg);
    match CurrentRoom(s, c)
    case None =>
    case Some(code) =>
      var ps := s.rooms[code].players;
      var pid := s.sessions[c].playerId;
      RelayReachesExactlyOthers(ps, pid, msg);
      assert t.outbox[|s.outbox|..] == RelayToOthers(ps, pid, msg);
      assert RoomWellFormed(s.rooms[code], s.sessions);
      forall d | d in t.outbox[|s.outbox|..]
        ensures d.to != c
      {
        var i :| 0 <= i < |ps| && ps[i].id != pid && ps[i].conn == d.to;
        assert ps[i] in ps;
      }
  }

  /** `score_update` replaces the room's pair and sends `score_sync` with it
      to every player of the room, the sender included, in slot order; with
      no registered room it does nothing. */
  lemma ScoreUpdateSyncsEveryone(s: Server, c: ConnId, scores: ScorePair)
    requires c in s.sessions
    ensures var t := OnScoreUpdate(s, c, scores);
      && t.sessions == s.sessions && t.open == s.open
      && match CurrentRoom(s, c)
         case None => t == s
         case Some(code) =>
           var ps := s.rooms[code].players;
           && t.rooms == s.rooms[code := Room(ps, scores)]
           && |t.outbox| == |s.outbox| + |ps|
           && t.outbox[..|s.outbox|] == s.outbox
           && forall i :: 0 <= i < |ps| ==> t.outbox[|s.outbox| + i] == Delivery(ps[i].conn, ScoreSync(scores))
  {
    match CurrentRoom(s, c)
    case None =>
    case Some(code) =>
      BroadcastReachesEverySlot(s.rooms[code].players, ScoreSync(scores));
  }

  /** Message types the switch has no case for change nothing and send nothing. */
  lemma UnknownTypeIgnored(s: Server, c: ConnId, kind: string, generated: string)
    requires c in s.sessions && IsUnknownClientKind(kind)
    ensures OnMessage(s, c, UnknownType(kind), generated) == s
  {
  }

  // ---------------------------------------------------------------------
  // close
  // ---------------------------------------------------------------------

  /** Closing a connection whose room is registered notifies exactly the
      other players whose sockets are open and deletes the room, so a later
      `join_room` with that code finds nothing. */
  lemma CloseTearsDownRoom(s: Server, c: ConnId, other: ConnId)
    requires Inv(s) && c in s.sessions && other in s.sessions
    requires s.sessions[c].roomCode.Some? && s.sessions[c].roomCode.value in s.rooms
    requires s.sessions[c].roomCode.value != ""
    ensures var code := s.sessions[c].roomCode.value;
      var ps := s.rooms[code].players;
      var t := OnClose(s, c);
      && t.rooms == s.rooms - {code}
      && t.sessions == s.sessions
      && t.open == s.open - {c}
      && t.outbox[..|s.outbox|] == s.outbox
      && (forall d :: d in t.outbox[|s.outbox|..] <==>
            d.msg == PlayerDisconnected &&
            exists i :: 0 <= i < |ps| && ps[i].id != s.sessions[c].playerId && ps[i].conn in t.open && ps[i].conn == d.to)
      && OnJoinRoom(t, other, code).outbox == t.outbox + [Delivery(other, Error(RoomNotFound))]
  {
    var code := s.sessions[c].roomCode.value;
    GeneratedCodeIsUpper(code);
    NotifyReachesOpenOthers(s.rooms[code].players, s.sessions[c].playerId, s.open - {c});
  }

  /** In a two-player room of distinct players, closing either one sends
      exactly one `player_disconnected`, to the other, if its socket is open. */
  lemma ClosePairNotifiesPeerOnce(s: Server, c: ConnId)
    requires Inv(s) && c in s.sessions
    requires s.sessions[c].roomCode.Some? && s.sessions[c].roomCode.value in s.rooms
    requires s.sessions[c].roomCode.value != ""
    requires var ps := s.rooms[s.sessions[c].roomCode.value].players;
      |ps| == 2 && ps[0].id != ps[1].id && (ps[0].conn == c || ps[1].conn == c)
    ensures var ps := s.rooms[s.sessions[c].roomCode.value].players;
      var peer := if ps[0].conn == c then ps[1] else ps[0];
      OnClose(s, c).outbox == s.outbox + (if peer.conn in s.open then [Delivery(peer.conn, PlayerDisconnected)] else [])
  {
    var ps := s.rooms[s.sessions[c].roomCode.value].players;
    var pid := s.sessions[c].playerId;
    var open := s.open - {c};
    assert RoomWellFormed(s.rooms[s.sessions[c].roomCode.value], s.sessions);
    assert ps[0] in ps && ps[1] in ps;
    assert ps[..1] == [ps[0]] && [ps[0]][..0] == [];
    var first := if ps[0].id != pid && ps[0].conn in open then [Delivery(ps[0].conn, PlayerDisconnected)] else [];
    var second := if ps[1].id != pid && ps[1].conn in open then [Delivery(ps[1].conn, PlayerDisconnected)] else [];
    assert NotifyOthers([ps[0]], pid, open) == first;
    assert NotifyOthers(ps, pid, open) == first + second;
  }

  /** A room registered under the empty code (possible when the generator
      yields "") survives its creator's disconnect, since `""` is falsy. */
  lemma EmptyCodeRoomSurvivesClose(s: Server, c: ConnId)
    requires c in s.sessions && s.sessions[c].roomCode == Some("")
    ensures OnClose(s, c).rooms == s.rooms
  {
  }

  // ---------------------------------------------------------------------
  // An end-to-end session
  // ---------------------------------------------------------------------

  /** Y joins X's one-player room with a code that upper-cases to the room's
      code: Y is appended, its session names the code, and it is confirmed
      before the two `game_start`s go out in slot order. */
  lemma {:induction false} GuestJoinsHost(s: Server, x: ConnId, y: ConnId, px: string, py: string, code: string, requested: string)
    requires x != y && Upper(requested) == code
    requires s.rooms == map[code := Room([Player(px, x)], ScorePair(0, 0))]
    requires s.sessions == map[x := Session(px, Some(code)), y := Session(py, None)]
    ensures OnJoinRoom(s, y, requested)
      == s.(rooms := map[code := Room([Player(px, x), Player(py, y)], ScorePair(0, 0))],
            sessions := map[x := Session(px, Some(code)), y := Session(py, Some(code))],
            outbox := s.outbox + [Delivery(y, JoinConfirmed(code)),
                                  Delivery(x, GameStart(1, 2)), Delivery(y, GameStart(2, 2))])
  {
    var ps := [Player(px, x), Player(py, y)];
    assert s.rooms[code].players + [Player(py, y)] == ps;
    GameStartsNumberSlots(ps, 2);
    assert GameStarts(ps, 2) == [Delivery(x, GameStart(1, 2)), Delivery(y, GameStart(2, 2))];
  }

  /** X and Y connect, X creates a room under a generated code and Y joins
      it with the lower-case variant of that code: both sessions name the
      registered code, the room holds X then Y, and the sends are the
      `room_created` reply, Y's confirmation and the two `game_start`s. */
  lemma {:induction false} TwoPlayerJoin(x: ConnId, y: ConnId, px: string, py: string, code: string)
    requires x != y && IsGeneratedCode(code)
    ensures var s0 := OnConnect(OnConnect(Initial(), x, px), y, py);
      var s1 := OnMessage(s0, x, CreateRoom, code);
      OnMessage(s1, y, JoinRoom(Lower(code)), code)
        == Server(map[code := Room([Player(px, x), Player(py, y)], ScorePair(0, 0))],
                  map[x := Session(px, Some(code)), y := Session(py, Some(code))], {x, y},
                  [Delivery(x, RoomCreated(code, px)), Delivery(y, JoinConfirmed(code)),
                   Delivery(x, GameStart(1, 2)), Delivery(y, GameStart(2, 2))])
  {
    var s0 := OnConnect(OnConnect(Initial(), x, px), y, py);
    assert s0 == Server(map[], map[x := Session(px, None), y := Session(py, None)], {x, y}, []);
    var s1 := OnMessage(s0, x, CreateRoom, code);
    assert s1 == Server(map[code := Room([Player(px, x)], ScorePair(0, 0))],
                        map[x := Session(px, Some(code)), y := Session(py, None)], {x, y},
                        [Delivery(x, RoomCreated(code, px))]);
    GeneratedCodeIsUpper(code);
    GuestJoinsHost(s1, x, y, px, py, code, Lower(code));
  }

  /** In a room holding X then Y, with both sessions naming its code: X's
      score update [3, 1] is stored and echoed to both players, then Y's
      paddle move reaches X only. */
  lemma {:induction false} TwoPlayerRally(s: Server, x: ConnId, y: ConnId, px: string, py: string, code: string, paddle: Vec2)
    requires x != y && px != py
    requires s.rooms == map[code := Room([Player(px, x), Player(py, y)], ScorePair(0, 0))]
    requires s.sessions == map[x := Session(px, Some(code)), y := Session(py, Some(code))]
    ensures var s3 := OnMessage(s, x, ScoreUpdate(ScorePair(3, 1)), code);
      var s4 := OnMessage(s3, y, PaddleMove(paddle), code);
      && s4.rooms == map[code := Room([Player(px, x), Player(py, y)], ScorePair(3, 1))]
      && s4.sessions == s.sessions && s4.open == s.open
      && s4.outbox == s.outbox + [Delivery(x, ScoreSync(ScorePair(3, 1))),
                                  Delivery(y, ScoreSync(ScorePair(3, 1))),
                                  Delivery(x, OpponentMove(paddle))]
  {
    var host, guest := Player(px, x), Player(py, y);
    var ps := [host, guest];
    var s3 := OnMessage(s, x, ScoreUpdate(ScorePair(3, 1)), code);
    BroadcastReachesEverySlot(ps, ScoreSync(ScorePair(3, 1)));
    assert s3 == s.(rooms := map[code := Room(ps, ScorePair(3, 1))],
                    outbox := s.outbox + [Delivery(x, ScoreSync(ScorePair(3, 1))),
                                          Delivery(y, ScoreSync(ScorePair(3, 1)))]);
    assert ps[..1] == [host] && [host][..0] == [];
    assert RelayToOthers([host], py, OpponentMove(paddle)) == [Delivery(x, OpponentMove(paddle))];
    assert RelayToOthers(ps, py, OpponentMove(paddle)) == [Delivery(x, OpponentMove(paddle))];
  }

  /** The whole session from two fresh connections: create, case-insensitive
      join, score update, paddle move, and every send in order. */
  lemma {:induction false} TwoPlayerSession(x: ConnId, y: ConnId, px: string, py: string, code: string, paddle: Vec2)
    requires x != y && px != py && IsGeneratedCode(code)
    ensures var s0 := OnConnect(OnConnect(Initial(), x, px), y, py);
      var s1 := OnMessage(s0, x, CreateRoom, code);
      var s2 := OnMessage(s1, y, JoinRoom(Lower(code)), code);
      var s3 := OnMessage(s2, x, ScoreUpdate(ScorePair(3, 1)), code);
      var s4 := OnMessage(s3, y, PaddleMove(paddle), code);
      && s4.rooms == map[code := Room([Player(px, x), Player(py, y)], ScorePair(3, 1))]
      && s4.outbox == [Delivery(x, RoomCreated(code, px)),
                       Delivery(y, JoinConfirmed(code)),
                       Delivery(x, GameStart(1, 2)),
                       Delivery(y, GameStart(2, 2)),
                       Delivery(x, ScoreSync(ScorePair(3, 1))),
                       Delivery(y, ScoreSync(ScorePair(3, 1))),
                       Delivery(x, OpponentMove(paddle))]
  {
    TwoPlayerJoin(x, y, px, py, code);
    var s1 := OnMessage(OnConnect(OnConnect(Initial(), x, px), y, py), x, CreateRoom, code);
    TwoPlayerRally(OnMessage(s1, y, JoinRoom(Lower(code)), code), x, y, px, py, code, paddle);
  }
}
