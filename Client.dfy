/**
 The protocol state of the browser client in public/game.js: the flags of
 `WebSocketClient`, how `handleMessage` changes them and the game's fields,
 the guards on its `send*` methods, and the score logic of `PongGame`
 (`syncScores`, `gameOver`). DOM writes, alerts, audio, the camera and the
 Three.js scene are left out; paddle and ball coordinates remain only as the
 values that `updateOpponentPaddle` and `syncBall` store and the serve
 position `startCountdown` puts the ball at.
 */
module Client {
  import opened Wrappers
  import opened Protocol
  import opened Ascii

  /** `this.maxScore`, set once by `init`. */
  const MaxScore: int := 5

  /** `this.arenaDepth` as `init` sets it, and on a wide screen. */
  const WideArenaDepth: real := 20.0

  /** `this.arenaDepth` on a screen narrower than 768 pixels. */
  const NarrowArenaDepth: real := 14.0

  /** The ball's position after `resetBall`. */
  const Origin: Vec3 := Vec3(0.0, 0.0, 0.0)

  /** What the game-over screen's winner text announces, if it is shown. */
  datatype Banner = NotShown | YouWin | OpponentWins

  /** The fields of `PongGame` that the protocol reads or writes. */
  datatype GameView = GameView(
    initialized: bool,
    gameOn: bool,
    isMultiplayer: bool,
    playerNumber: int,
    myScore: int,
    botScore: int,
    banner: Banner,
    opponentPaddle: Vec2,
    ball: Vec3,
    ballDir: Vec3,
    arenaDepth: real)

  /** `[myScore, botScore]` as `syncScores` reads them off the host-ordered
      pair: player 1 keeps the order, anyone else swaps it. */
  function LocalScores(playerNumber: int, scores: ScorePair): (r: (int, int))
    ensures multiset{r.0, r.1} == multiset{scores.host, scores.guest}
    ensures playerNumber == 1 ==> r.0 == scores.host
    ensures playerNumber != 1 ==> r.0 == scores.guest
  {
    if playerNumber == 1 then (scores.host, scores.guest) else (scores.guest, scores.host)
  }

  /** The end-of-game test of `syncScores`. */
  predicate ReachesMax(myScore: int, botScore: int) {
    myScore >= MaxScore || botScore >= MaxScore
  }

  /** The winner text `gameOver` chooses. */
  function Verdict(myScore: int, botScore: int): (r: Banner)
    ensures r != NotShown
    ensures r == YouWin <==> myScore > botScore
  {
    if myScore > botScore then YouWin else OpponentWins
  }

  /** `gameOver` on the game's fields. */
  function AfterGameOver(g: GameView): (r: GameView)
    ensures !r.gameOn && r.banner != NotShown
    ensures r == g.(gameOn := r.gameOn, banner := r.banner)
  {
    g.(gameOn := false, banner := Verdict(g.myScore, g.botScore))
  }

  /** `syncScores` on the game's fields. */
  function AfterSyncScores(g: GameView, scores: ScorePair): (r: GameView)
    ensures (r.myScore, r.botScore) == LocalScores(g.playerNumber, scores)
    ensures r.gameOn ==> g.gameOn
    ensures r == g.(myScore := r.myScore, botScore := r.botScore, gameOn := r.gameOn, banner := r.banner)
  {
    var (mine, theirs) := LocalScores(g.playerNumber, scores);
    var synced := g.(myScore := mine, botScore := theirs);
    if ReachesMax(mine, theirs) then AfterGameOver(synced) else synced
  }

  /** The host's and the guest's views of one pair are mirror images, and the
      host reads back exactly the `[myScore, botScore]` it sent. */
  lemma ViewsMirror(scores: ScorePair)
    ensures LocalScores(1, scores) == (scores.host, scores.guest)
    ensures LocalScores(2, scores) == (scores.guest, scores.host)
  {
  }

  /** A score pair ends the game for the host exactly when it ends it for the
      guest, and then at most one of them is told it won: exactly one when the
      scores differ, neither on a tie. */
  lemma AtMostOneWinner(g1: GameView, g2: GameView, scores: ScorePair)
    requires g1.playerNumber == 1 && g2.playerNumber == 2
    ensures var h := AfterSyncScores(g1, scores);
      var v := AfterSyncScores(g2, scores);
      && (ReachesMax(h.myScore, h.botScore) <==> ReachesMax(v.myScore, v.botScore))
      && (ReachesMax(h.myScore, h.botScore) ==>
            && !(h.banner == YouWin && v.banner == YouWin)
            && (scores.host != scores.guest ==> (h.banner == YouWin <==> v.banner == OpponentWins))
            && (scores.host == scores.guest ==> h.banner == OpponentWins && v.banner == OpponentWins))
  {
  }

  /** After `syncScores` the game is still on exactly when it was on and
      neither score reached `maxScore`; when it ends, the local player is
      announced the winner exactly when its score is the larger. */
  lemma SyncScoresEndsAtMax(g: GameView, scores: ScorePair)
    ensures var r := AfterSyncScores(g, scores);
      && (r.myScore, r.botScore) == LocalScores(g.playerNumber, scores)
      && r.gameOn == (g.gameOn && !ReachesMax(r.myScore, r.botScore))
      && (ReachesMax(r.myScore, r.botScore) ==> (r.banner == YouWin <==> r.myScore > r.botScore))
      && (!ReachesMax(r.myScore, r.botScore) ==> r.banner == g.banner)
      && r.playerNumber == g.playerNumber && r.isMultiplayer == g.isMultiplayer
  {
  }

  /** The ball position `startCountdown` serves from: on the centre line, two
      units in from the end of the half the ball was in. */
  function ServePosition(ball: Vec3, arenaDepth: real): (r: Vec3)
    ensures r.x == 0.0 && r.y == 0.0
    ensures r.z == arenaDepth / 2.0 - 2.0 || r.z == 2.0 - arenaDepth / 2.0
    ensures arenaDepth > 4.0 ==> (r.z < 0.0 <==> ball.z < 0.0)
  {
    if ball.z < 0.0 then Vec3(0.0, 0.0, -arenaDepth / 2.0 + 2.0) else Vec3(0.0, 0.0, arenaDepth / 2.0 - 2.0)
  }

  predicate IsArenaDepth(d: real) {
    d == WideArenaDepth || d == NarrowArenaDepth
  }

  /** `init` on the game's fields: the first call switches the game on at
      0 : 0 in the wide arena with a new ball, reset by `resetBall` to the
      centre with the randomly drawn direction `drawn`, which a single-player
      game serves at once; later calls change nothing. */
  function AfterInit(g: GameView, drawn: Vec3): (r: GameView)
    ensures r.initialized
    ensures g.initialized ==> r == g
    ensures !g.initialized ==> r.gameOn && r.myScore == 0 && r.botScore == 0 && IsArenaDepth(r.arenaDepth)
    ensures r.isMultiplayer == g.isMultiplayer && r.playerNumber == g.playerNumber && r.banner == g.banner
  {
    if g.initialized then g
    else
      g.(initialized := true, gameOn := true, myScore := 0, botScore := 0, arenaDepth := WideArenaDepth,
         ball := if g.isMultiplayer then Origin else ServePosition(Origin, WideArenaDepth),
         ballDir := drawn)
  }

  /** `startGame` on the game's fields: `init` if needed, both scores reset,
      and the ball served by `startCountdown`. */
  function AfterStartGame(g: GameView, drawn: Vec3): (r: GameView)
    ensures r.initialized && r.myScore == 0 && r.botScore == 0
    ensures r.gameOn == (g.gameOn || !g.initialized)
    ensures r.isMultiplayer == g.isMultiplayer && r.playerNumber == g.playerNumber && r.banner == g.banner
    ensures r.opponentPaddle == g.opponentPaddle
  {
    var h := AfterInit(g, drawn);
    h.(myScore := 0, botScore := 0, ball := ServePosition(h.ball, h.arenaDepth))
  }

  /** After `startGame` the scores are 0 : 0, the game is on unless it had
      been initialised and switched off, and the ball waits on the centre
      line, off the centre plane, in the half it was in (the far half of a
      new arena); the direction is untouched, or the one drawn by `init`. */
  lemma {:induction false} StartGameServes(g: GameView, drawn: Vec3)
    requires g.initialized ==> IsArenaDepth(g.arenaDepth)
    ensures var r := AfterStartGame(g, drawn);
      && r.initialized && IsArenaDepth(r.arenaDepth)
      && r.myScore == 0 && r.botScore == 0
      && r.gameOn == (g.gameOn || !g.initialized)
      && r.ball.x == 0.0 && r.ball.y == 0.0 && r.ball.z != 0.0
      && (g.initialized ==> (r.ball.z < 0.0 <==> g.ball.z < 0.0))
      && (!g.initialized ==> r.ball.z > 0.0)
      && r.ballDir == (if g.initialized then g.ballDir else drawn)
      && r.isMultiplayer == g.isMultiplayer && r.playerNumber == g.playerNumber && r.banner == g.banner
  {
    var h := AfterInit(g, drawn);
    assert h.initialized && IsArenaDepth(h.arenaDepth);
    assert !g.initialized ==> h.ball.z >= 0.0;
  }

  /** The browser `WebSocket`: every frame handed to `send`, and whether
      `close` was called. */
  class Socket {
    var sent: seq<ClientMsg>
    var closeCalled: bool

    constructor()
      ensures sent == [] && !closeCalled
    {
      sent, closeCalled := [], false;
    }

    method Send(m: ClientMsg)
      modifies this
      ensures sent == old(sent) + [m] && closeCalled == old(closeCalled)
    {
      sent := sent + [m];
    }

    method Close()
      modifies this
      ensures closeCalled && sent == old(sent)
    {
      closeCalled := true;
    }
  }

  class WebSocketClient {
    const game: PongGame
    var ws: Socket?
    var isHost: bool
    var roomCode: Option<string>
    var connected: bool

    /** `connected` is only set by `onopen`, which only a socket can fire;
        only `room_created`, which also sets `roomCode`, sets `isHost`. */
    ghost predicate Valid()
      reads this
    {
      && (connected ==> ws != null)
      && (isHost ==> roomCode.Some?)
    }

    /** What this client has sent on its current socket. */
    function Sent(): seq<ClientMsg>
      reads this, ws
    {
      if ws == null then [] else ws.sent
    }

    constructor(game: PongGame)
      ensures this.game == game && Valid()
      ensures ws == null && !isHost && roomCode == None && !connected
    {
      this.game := game;
      ws, isHost, roomCode, connected := null, false, None, false;
    }

    /** `connect()`: a new socket; `connected` waits for `onopen`. */
    method Connect()
      requires Valid()
      modifies this
      ensures Valid() && fresh(ws) && ws.sent == [] && !ws.closeCalled
      ensures isHost == old(isHost) && roomCode == old(roomCode) && connected == old(connected)
    {
      ws := new Socket();
    }

    /** `ws.onopen` */
    method OnOpen()
      requires Valid() && ws != null
      modifies this
      ensures Valid() && connected
      ensures ws == old(ws) && isHost == old(isHost) && roomCode == old(roomCode)
    {
      connected := true;
    }

    /** `ws.onclose` */
    method OnClose()
      requires Valid()
      modifies this
      ensures Valid() && !connected
      ensures ws == old(ws) && isHost == old(isHost) && roomCode == old(roomCode)
    {
      connected := false;
    }

    /** `createRoom()`: sends only while connected. */
    method CreateRoom()
      requires Valid()
      modifies ws
      ensures Sent() == old(Sent()) + (if connected then [ClientMsg.CreateRoom] else [])
      ensures ws != null ==> ws.closeCalled == old(ws.closeCalled)
    {
      if connected {
        ws.Send(ClientMsg.CreateRoom);
      }
    }

    /** `joinRoom(roomCode)`: sends only while connected. */
    method JoinRoom(code: string)
      requires Valid()
      modifies ws
      ensures Sent() == old(Sent()) + (if connected then [ClientMsg.JoinRoom(code)] else [])
      ensures ws != null ==> ws.closeCalled == old(ws.closeCalled)
    {
      if connected {
        ws.Send(ClientMsg.JoinRoom(code));
      }
    }

    /** `sendPaddlePosition`: only while connected and the game is on. */
    method SendPaddlePosition(position: Vec2)
      requires Valid()
      modifies ws
      ensures Sent() == old(Sent()) + (if connected && game.gameOn then [PaddleMove(position)] else [])
      ensures ws != null ==> ws.closeCalled == old(ws.closeCalled)
    {
      if connected && game.gameOn {
        ws.Send(PaddleMove(position));
      }
    }

    /** `sendBallUpdate`: only the host, while connected and the game is on. */
    method SendBallUpdate(position: Vec3, direction: Vec3)
      requires Valid()
      modifies ws
      ensures Sent() == old(Sent()) + (if connected && isHost && game.gameOn then [BallUpdate(position, direction)] else [])
      ensures ws != null ==> ws.closeCalled == old(ws.closeCalled)
    {
      if connected && isHost && game.gameOn {
        ws.Send(BallUpdate(position, direction));
      }
    }

    /** `sendScoreUpdate`: only the host, while connected and the game is on. */
    method SendScoreUpdate(scores: ScorePair)
      requires Valid()
      modifies ws
      ensures Sent() == old(Sent()) + (if connected && isHost && game.gameOn then [ScoreUpdate(scores)] else [])
      ensures ws != null ==> ws.closeCalled == old(ws.closeCalled)
    {
      if connected && isHost && game.gameOn {
        ws.Send(ScoreUpdate(scores));
      }
    }

    /** `close()`: asks the socket, if there is one, to close. */
    method Close()
      modifies ws
      ensures ws != null ==> ws.closeCalled && ws.sent == old(ws.sent)
    {
      if ws != null {
        ws.Close();
      }
    }

    /** `handleMessage(data)`. `drawn` stands for the random ball direction
        `resetBall` picks if `game_start` initialises the game. */
    method HandleMessage(m: ServerMsg, drawn: Vec3)
      requires Valid() && game.Valid() && game.wsClient == this
      requires m.UnknownNotice? ==> IsUnknownServerKind(m.kind)
      modifies this, game, ws
      ensures Valid() && game.Valid() && game.wsClient == this
      ensures ws == old(ws) && connected == old(connected)
      // room_created and join_confirmed set the role and the code, and nothing else
      ensures m.RoomCreated? ==> isHost && roomCode == Some(m.roomCode)
      ensures m.JoinConfirmed? ==> !isHost && roomCode == Some(m.roomCode)
      ensures !m.RoomCreated? && !m.JoinConfirmed? ==> isHost == old(isHost) && roomCode == old(roomCode)
      // game_start starts the game as the announced player; the host reports 0 : 0
      ensures m.GameStart? ==>
        && game.View() == AfterStartGame(old(game.View()).(isMultiplayer := true, playerNumber := m.playerNumber), drawn)
        && Sent() == old(Sent()) + (if connected && isHost && game.gameOn then [ScoreUpdate(ScorePair(0, 0))] else [])
      // the relayed state is applied only while the game is on; the ball only by the guest
      ensures m.OpponentMove? ==>
        game.View() == if old(game.gameOn) then old(game.View()).(opponentPaddle := m.paddle) else old(game.View())
      ensures m.BallSync? ==>
        game.View() == if !isHost && old(game.gameOn) then old(game.View()).(ball := m.position, ballDir := m.direction)
                       else old(game.View())
      ensures m.ScoreSync? ==>
        game.View() == if old(game.gameOn) then AfterSyncScores(old(game.View()), m.scores) else old(game.View())
      ensures m.RoomCreated? || m.JoinConfirmed? || m.PlayerDisconnected? || m.Error? || m.UnknownNotice? ==>
        game.View() == old(game.View())
      ensures !m.GameStart? ==> Sent() == old(Sent())
      // only a game that a score_sync ends closes the socket
      ensures ws != null ==>
        ws.closeCalled == (old(ws.closeCalled) ||
                           (m.ScoreSync? && old(game.gameOn) && game.isMultiplayer && ReachesMax(game.myScore, game.botScore)))
    {
      match m
      case RoomCreated(code, _) =>
        roomCode := Some(code);
        isHost := true;
      case JoinConfirmed(code) =>
        roomCode := Some(code);
        isHost := false;
      case GameStart(n, _) =>
        game.isMultiplayer := true;
        game.playerNumber := n;
        game.StartGame(drawn);
      case OpponentMove(position) =>
        if game.gameOn {
          game.UpdateOpponentPaddle(position);
        }
      case BallSync(position, direction) =>
        if !isHost && game.gameOn {
          game.SyncBall(position, direction);
        }
      case ScoreSync(scores) =>
        if game.gameOn {
          game.SyncScores(scores);
        }
      case PlayerDisconnected =>
      case Error(_) =>
      case UnknownNotice(_) =>
    }
  }

  class PongGame {
    var wsClient: WebSocketClient?
    var initialized: bool
    var gameOn: bool
    var isMultiplayer: bool
    var playerNumber: int
    var myScore: int
    var botScore: int
    var banner: Banner
    var opponentPaddle: Vec2
    var ball: Vec3
    var ballDir: Vec3
    var arenaDepth: real

    /** The game owns its client and the client points back at it; `gameOn`
        is first set by `init`. */
    ghost predicate Valid()
      reads this, wsClient
    {
      && wsClient != null && wsClient.game == this && wsClient.Valid()
      && (gameOn ==> initialized)
      && (initialized ==> IsArenaDepth(arenaDepth))
    }

    function View(): GameView
      reads this
    {
      GameView(initialized, gameOn, isMultiplayer, playerNumber, myScore, botScore, banner,
               opponentPaddle, ball, ballDir, arenaDepth)
    }

    constructor()
      ensures Valid() && fresh(wsClient)
      ensures !initialized && !gameOn && !isMultiplayer && playerNumber == 1 && banner == NotShown
      ensures wsClient.ws == null && !wsClient.connected && !wsClient.isHost && wsClient.roomCode == None
    {
      initialized, gameOn, isMultiplayer, playerNumber, banner := false, false, false, 1, NotShown;
      new;
      wsClient := new WebSocketClient(this);
    }

    /** The `bot-button` button: a single-player game is started. */
    method BotButton(drawn: Vec3)
      requires Valid()
      modifies this, wsClient.ws
      ensures Valid() && wsClient == old(wsClient)
      ensures View() == AfterStartGame(old(View()).(isMultiplayer := false), drawn)
      ensures wsClient.Sent() == old(wsClient.Sent())
      ensures wsClient.ws != null ==> wsClient.ws.closeCalled == old(wsClient.ws.closeCalled)
    {
      isMultiplayer := false;
      StartGame(drawn);
    }

    /** The `multiplayer-button` button: the game becomes multiplayer and the
        client opens a new socket. */
    method MultiplayerButton()
      requires Valid()
      modifies this, wsClient
      ensures Valid() && wsClient == old(wsClient)
      ensures View() == old(View()).(isMultiplayer := true)
      ensures fresh(wsClient.ws) && wsClient.ws.sent == [] && !wsClient.ws.closeCalled
      ensures wsClient.isHost == old(wsClient.isHost) && wsClient.roomCode == old(wsClient.roomCode)
      ensures wsClient.connected == old(wsClient.connected)
    {
      isMultiplayer := true;
      wsClient.Connect();
    }

    /** The `submit-code` button: the typed code is upper-cased before `joinRoom`. */
    method SubmitCode(input: string)
      requires Valid()
      modifies wsClient.ws
      ensures wsClient.Sent() == old(wsClient.Sent()) + (if wsClient.connected then [ClientMsg.JoinRoom(Upper(input))] else [])
      ensures wsClient.ws != null ==> wsClient.ws.closeCalled == old(wsClient.ws.closeCalled)
    {
      wsClient.JoinRoom(Upper(input));
    }

    /** `init()` without the scene: the game is switched on once. `drawn`
        stands for the random direction `resetBall` picks. */
    method Init(drawn: Vec3)
      requires Valid()
      modifies this
      ensures Valid()
      ensures View() == AfterInit(old(View()), drawn)
      ensures wsClient == old(wsClient)
    {
      if initialized {
        return;
      }
      initialized := true;
      gameOn := true;
      myScore := 0;
      botScore := 0;
      arenaDepth := WideArenaDepth;
      ball, ballDir := Origin, drawn;
      if !isMultiplayer {
        StartCountdown();
      }
    }

    /** `updateGameDimensions()`, of which only `arenaDepth` is modelled. */
    method UpdateGameDimensions(isMobile: bool)
      requires Valid()
      modifies this
      ensures Valid() && wsClient == old(wsClient)
      ensures View() == old(View()).(arenaDepth := if isMobile then NarrowArenaDepth else WideArenaDepth)
    {
      arenaDepth := if isMobile then NarrowArenaDepth else WideArenaDepth;
    }

    /** The part of `startCountdown()` that runs at once: the ball is put at
        its serve position. */
    method StartCountdown()
      modifies this
      ensures View() == old(View()).(ball := ServePosition(old(ball), arenaDepth)) && wsClient == old(wsClient)
    {
      ball := ServePosition(ball, arenaDepth);
    }

    /** `updateScore()`: in a multiplayer game the host reports its scores. */
    method UpdateScore()
      requires Valid()
      modifies wsClient.ws
      ensures wsClient.Sent() == old(wsClient.Sent()) + (if isMultiplayer && wsClient.isHost && wsClient.connected && gameOn
                                       then [ScoreUpdate(ScorePair(myScore, botScore))] else [])
      ensures wsClient.ws != null ==> wsClient.ws.closeCalled == old(wsClient.ws.closeCalled)
    {
      if isMultiplayer && wsClient.isHost {
        wsClient.SendScoreUpdate(ScorePair(myScore, botScore));
      }
    }

    /** `startGame()`; `drawn` is passed on to `init`. */
    method StartGame(drawn: Vec3)
      requires Valid()
      modifies this, wsClient.ws
      ensures Valid() && wsClient == old(wsClient)
      ensures View() == AfterStartGame(old(View()), drawn)
      ensures wsClient.Sent() == old(wsClient.Sent()) + (if isMultiplayer && wsClient.isHost && wsClient.connected && gameOn
                                       then [ScoreUpdate(ScorePair(0, 0))] else [])
      ensures wsClient.ws != null ==> wsClient.ws.closeCalled == old(wsClient.ws.closeCalled)
    {
      Init(drawn);
      myScore := 0;
      botScore := 0;
      UpdateScore();
      StartCountdown();
    }

    /** `updateOpponentPaddle(position)` */
    method UpdateOpponentPaddle(position: Vec2)
      modifies this
      ensures View() == old(View()).(opponentPaddle := position) && wsClient == old(wsClient)
    {
      opponentPaddle := position;
    }

    /** `syncBall(position, direction)` */
    method SyncBall(position: Vec3, direction: Vec3)
      modifies this
      ensures View() == old(View()).(ball := position, ballDir := direction) && wsClient == old(wsClient)
    {
      ball := position;
      ballDir := direction;
    }

    /** `gameOver()`: stops the game, announces the result, and in a
        multiplayer game closes the socket. */
    method GameOver()
      requires Valid()
      modifies this, wsClient.ws
      ensures Valid() && wsClient == old(wsClient)
      ensures View() == AfterGameOver(old(View()))
      ensures wsClient.Sent() == old(wsClient.Sent())
      ensures wsClient.ws != null ==> wsClient.ws.closeCalled == (old(wsClient.ws.closeCalled) || isMultiplayer)
    {
      gameOn := false;
      banner := Verdict(myScore, botScore);
      if isMultiplayer {
        wsClient.Close();
      }
    }

    /** `syncScores(scores)`; `maxScore` is set, since `init` has run. */
    method SyncScores(scores: ScorePair)
      requires Valid() && initialized
      modifies this, wsClient.ws
      ensures Valid() && wsClient == old(wsClient)
      ensures View() == AfterSyncScores(old(View()), scores)
      ensures wsClient.Sent() == old(wsClient.Sent())
      ensures wsClient.ws != null ==>
        wsClient.ws.closeCalled == (old(wsClient.ws.closeCalled) || (isMultiplayer && ReachesMax(myScore, botScore)))
    {
      if playerNumber == 1 {
        myScore := scores.host;
        botScore := scores.guest;
      } else {
        myScore := scores.guest;
        botScore := scores.host;
      }
      if myScore >= MaxScore || botScore >= MaxScore {
        GameOver();
      }
    }
  }
}
