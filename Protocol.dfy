/**
 The messages exchanged between the browser client (public/game.js) and the
 session coordinator (server.js). On the wire each one is a JSON object with a
 `type` field; here each `type` is a constructor and the JSON framing is gone.
 */
module Protocol {

  /** A paddle position `{x, y}` (the `position` field of `paddle_move` and
      `opponent_move`); the coordinator copies it without reading it. */
  datatype Vec2 = Vec2(x: real, y: real)

  /** A ball position or direction `{x, y, z}`. */
  datatype Vec3 = Vec3(x: real, y: real, z: real)

  /** The `scores` array `[hostScore, guestScore]`: index 0 belongs to player 1. */
  datatype ScorePair = ScorePair(host: int, guest: int)

  /** Client to coordinator. */
  datatype ClientMsg =
    | CreateRoom
    | JoinRoom(roomCode: string)
    | PaddleMove(paddle: Vec2)
    | BallUpdate(position: Vec3, direction: Vec3)
    | ScoreUpdate(scores: ScorePair)
      /** any other `type` (`IsUnknownClientKind(kind)`): no case of the
          coordinator's switch matches it */
    | UnknownType(kind: string)

  /** Coordinator to client. */
  datatype ServerMsg =
    | RoomCreated(roomCode: string, playerId: string)
    | JoinConfirmed(roomCode: string)
    | GameStart(playerNumber: int, totalPlayers: int)
    | OpponentMove(paddle: Vec2)
    | BallSync(position: Vec3, direction: Vec3)
    | ScoreSync(scores: ScorePair)
    | PlayerDisconnected
    | Error(message: string)
      /** any other `type` (`IsUnknownServerKind(kind)`): no case of the
          client's switch matches it */
    | UnknownNotice(kind: string)

  /** A `type` other than the five the coordinator handles. */
  predicate IsUnknownClientKind(kind: string) {
    kind !in {"create_room", "join_room", "paddle_move", "ball_update", "score_update"}
  }

  /** A `type` other than the eight the client handles. */
  predicate IsUnknownServerKind(kind: string) {
    kind !in {"room_created", "join_confirmed", "game_start", "opponent_move",
              "ball_sync", "score_sync", "player_disconnected", "error"}
  }

  const RoomNotFound: string := "Room not found"
  const RoomIsFull: string := "Room is full"
}
