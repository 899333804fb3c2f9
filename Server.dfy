/**
 The connection handler of server.js, run in place: the registry and the
 closure variables are fields that each handler updates, and each `forEach`
 over a room's players is a loop that sends one message per iteration. Every
 handler method is proved to leave the object in the state the matching
 handler of module Coordination describes; the entry points (the constructor,
 `Connect`, `HandleMessage`, `Close`) also keep Coordination.Inv.
 */
module Server {
  import opened Wrappers
  import opened Protocol
  import opened Ascii
  import opened Coordination

  class SessionCoordinator {
    /** `gameRooms` */
    var rooms: map<string, Room>
    /** the closure variables `playerId` and `roomCode` of each connection */
    var sessions: map<ConnId, Session>
    /** connections whose `readyState` is OPEN */
    var open: set<ConnId>
    /** every `ws.send` so far, in order */
    var outbox: seq<Delivery>

    function State(): Server
      reads this
    {
      Server(rooms, sessions, open, outbox)
    }

    ghost predicate Valid()
      reads this
    {
      Inv(State())
    }

    constructor()
      ensures Valid() && State() == Initial()
    {
      rooms, sessions, open, outbox := map[], map[], {}, [];
    }

    /** `wss.on('connection')` with the identifier `uuidv4` minted. */
    method Connect(c: ConnId, playerId: string)
      requires Valid() && c !in sessions
      modifies this
      ensures Valid() && State() == OnConnect(old(State()), c, playerId)
    {
      ConnectPreservesInv(State(), c, playerId);
      sessions := sessions[c := Session(playerId, None)];
      open := open + {c};
    }

    /** The `message` callback. `generated` stands for the `generateRoomCode()`
        call of the `create_room` case. */
    method HandleMessage(c: ConnId, msg: ClientMsg, generated: string)
      requires Valid() && c in sessions && IsGeneratedCode(generated)
      modifies this
      ensures Valid() && State() == OnMessage(old(State()), c, msg, generated)
    {
      MessagePreservesInv(State(), c, msg, generated);
      match msg
      case CreateRoom => CreateRoom(c, generated);
      case JoinRoom(code) => JoinRoom(c, code);
      case PaddleMove(p) => Relay(c, OpponentMove(p));
      case BallUpdate(p, d) => Relay(c, BallSync(p, d));
      case ScoreUpdate(scores) => ScoreUpdate(c, scores);
      case UnknownType(_) =>
    }

    method CreateRoom(c: ConnId, code: string)
      requires c in sessions
      modifies this
      ensures State() == OnCreateRoom(old(State()), c, code)
    {
      var playerId := sessions[c].playerId;
      sessions := sessions[c := Session(playerId, Some(code))];
      rooms := rooms[code := Room([Player(playerId, c)], ScorePair(0, 0))];
      outbox := outbox + [Delivery(c, RoomCreated(code, playerId))];
    }

    method JoinRoom(c: ConnId, requested: string)
      requires c in sessions
      modifies this
      ensures State() == OnJoinRoom(old(State()), c, requested)
    {
      var playerId := sessions[c].playerId;
      var key := Upper(requested);
      if key !in rooms {
        outbox := outbox + [Delivery(c, Error(RoomNotFound))];
        return;
      }
      var room := rooms[key];
      if |room.players| >= 2 {
        outbox := outbox + [Delivery(c, Error(RoomIsFull))];
        return;
      }
      sessions := sessions[c := Session(playerId, Some(key))];
      room := room.(players := room.players + [Player(playerId, c)]);
      rooms := rooms[key := room];
      outbox := outbox + [Delivery(c, JoinConfirmed(key))];

      ghost var confirmed := outbox;
      var players := room.players;
      var i := 0;
      while i < |players|
        invariant 0 <= i <= |players|
        invariant outbox == confirmed + GameStarts(players[..i], |players|)
        invariant rooms == old(rooms)[key := room]
        invariant sessions == old(sessions)[c := Session(playerId, Some(key))]
        invariant open == old(open)
      {
        assert players[..i + 1][..i] == players[..i];
        outbox := outbox + [Delivery(players[i].conn, GameStart(i + 1, |players|))];
        i := i + 1;
      }
      assert players[..i] == players;
    }

    /** `paddle_move` (with `opponent_move`) and `ball_update` (with `ball_sync`). */
    method Relay(c: ConnId, msg: ServerMsg)
      requires c in sessions
      modifies this
      ensures State() == OnRelay(old(State()), c, msg)
    {
      var session := sessions[c];
      if session.roomCode.None? || session.roomCode.value !in rooms {
        return;
      }
      var players := rooms[session.roomCode.value].players;
      var i := 0;
      while i < |players|
        invariant 0 <= i <= |players|
        invariant outbox == old(outbox) + RelayToOthers(players[..i], session.playerId, msg)
        invariant rooms == old(rooms) && sessions == old(sessions) && open == old(open)
      {
        assert players[..i + 1][..i] == players[..i];
        if players[i].id != session.playerId {
          outbox := outbox + [Delivery(players[i].conn, msg)];
        }
        i := i + 1;
      }
      assert players[..i] == players;
    }

    method ScoreUpdate(c: ConnId, scores: ScorePair)
      requires c in sessions
      modifies this
      ensures State() == OnScoreUpdate(old(State()), c, scores)
    {
      var session := sessions[c];
      if session.roomCode.None? || session.roomCode.value !in rooms {
        return;
      }
      var code := session.roomCode.value;
      var room := rooms[code].(scores := scores);
      rooms := rooms[code := room];
      var players := room.players;
      var i := 0;
      while i < |players|
        invariant 0 <= i <= |players|
        invariant outbox == old(outbox) + Broadcast(players[..i], ScoreSync(scores))
        invariant rooms == old(rooms)[code := room] && sessions == old(sessions) && open == old(open)
      {
        assert players[..i + 1][..i] == players[..i];
        outbox := outbox + [Delivery(players[i].conn, ScoreSync(scores))];
        i := i + 1;
      }
      assert players[..i] == players;
    }

    /** `ws.on('close')`: the closed socket no longer counts as OPEN. */
    method Close(c: ConnId)
      requires Valid() && c in sessions
      modifies this
      ensures Valid() && State() == OnClose(old(State()), c)
    {
      ClosePreservesInv(State(), c);
      open := open - {c};
      var session := sessions[c];
      if session.roomCode.Some? && session.roomCode.value != "" && session.roomCode.value in rooms {
        var code := session.roomCode.value;
        NotifyDisconnect(rooms[code].players, session.playerId);
        rooms := rooms - {code};
      }
    }

    /** The close loop over a room's players: `player_disconnected` to each
        other player whose socket is OPEN. */
    method NotifyDisconnect(players: seq<Player>, sender: string)
      modifies this
      ensures outbox == old(outbox) + NotifyOthers(players, sender, open)
      ensures rooms == old(rooms) && sessions == old(sessions) && open == old(open)
    {
      var i := 0;
      while i < |players|
        invariant 0 <= i <= |players|
        invariant outbox == old(outbox) + NotifyOthers(players[..i], sender, open)
        invariant rooms == old(rooms) && sessions == old(sessions) && open == old(open)
      {
        assert players[..i + 1][..i] == players[..i];
        if players[i].id != sender && players[i].conn in open {
          outbox := outbox + [Delivery(players[i].conn, PlayerDisconnected)];
        }
        i := i + 1;
      }
      assert players[..i] == players;
    }
  }
}
