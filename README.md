# 3d-Pong session relay, modelled in Dafny

This project models the multiplayer core of 3d-Pong. The core is the session
coordinator in `server.js`. It pairs two browser connections into a room. It
makes the first one the host (player 1) and the second the guest (player 2).
It relays paddle, ball and score messages between them, and it tears the room
down when a connection closes. The project also models the protocol state of
the browser client in `public/game.js`: the `WebSocketClient` flags, how
`handleMessage` changes them, the guards on the `send*` methods, and the
`PongGame` score logic (`syncScores`, `gameOver`).

Files:

- `Protocol.dfy`: the message types. Each JSON `type` is a datatype
  constructor, and unrecognised types have their own constructor.
- `Ascii.dfy`: `toUpperCase` over ASCII, and the shape of the codes
  `generateRoomCode` returns (at most six characters, 0-9 and A-Z).
- `Coordination.dfy`: the coordinator as a value. This is the room registry
  `gameRooms`, the closure variables `playerId` and `roomCode` of each
  connection, the set of open sockets, and an outbox with every `ws.send` in
  order. Each handler is a function `OnX` from state to state. Each
  `players.forEach` loop is a function giving the sends it makes. The lemmas
  state what each handler does and that every handler keeps the invariant
  `Inv`: each registered room holds one or two players.
- `Server.dfy`: class `SessionCoordinator`. Its fields are updated in place
  and its loops send one message per player. Each handler method (`Connect`,
  `CreateRoom`, `JoinRoom`, `Relay`, `ScoreUpdate`, `Close`) is proved to reach
  exactly the state the matching `OnX` function gives. `NotifyDisconnect`, the
  close loop, is proved to append exactly `NotifyOthers`. The constructor,
  `Connect`, `HandleMessage` and `Close` also keep `Inv`. The per-case methods
  are only called from `HandleMessage`, which keeps it for them.
- `Client.dfy`: classes `Socket`, `WebSocketClient` and `PongGame`, with pure
  functions on the game's fields: `LocalScores`, `Verdict`, `AfterGameOver`,
  `AfterSyncScores`, `ServePosition`, `AfterInit` and `AfterStartGame`.

Behaviours of the code that a hardened coordinator would not have, which the
model keeps:

- `create_room` does not check for a code collision. It overwrites the
  registered room (`CreateCollisionEvictsPlayers`). A hardened coordinator
  would regenerate the code instead.
- `create_room` does not require the connection to be outside a room. A
  second `create_room` leaves the first room registered, and closing the
  connection never removes it (`SecondCreateOrphansFirstRoom`).
- A creator may `join_room` its own room (`CreatorMayJoinOwnRoom`).
- Codes are not always six characters long. `substring(2, 8)` of a short
  base-36 fraction is shorter, and can even be empty. A room under the empty
  code is never deleted on close, because `""` is falsy in the close handler
  (`EmptyCodeRoomSurvivesClose`).

## Model

| member | source | states |
|---|---|---|
| `Ascii.Upper` | server.js:42 | `toUpperCase` over ASCII: same length, each letter a-z mapped to A-Z, every other character kept |
| `Ascii.UpperIdempotent` | public/game.js:210-211 | upper-casing the typed code on the client and again on the server gives the same key as upper-casing once |
| `Ascii.UpperIgnoresCase` | server.js:42 | a lower-case variant of a string upper-cases to the same key as the string itself |
| `Ascii.IsGeneratedCode` | server.js:14-16 | a code `generateRoomCode` can return has at most six characters and is already in upper case |
| `Ascii.GeneratedCodeIsUpper` | server.js:14-16 | a generated code (digits and upper-case letters) is its own upper-case form, and so is the upper-case form of its lower-case variant |
| `Coordination.OnConnect` | server.js:20-22 | a connection gets a session with its minted `playerId` and no room, and an open socket; rooms, other sessions and sends are unchanged |
| `Coordination.OnCreateRoom` | server.js:28-39 | `create_room` registers the code, points the sender's `roomCode` at it, and makes exactly one send, to the sender; sockets and the set of sessions are unchanged |
| `Coordination.OnJoinRoom` | server.js:41-74 | `join_room` never adds or removes a room; its first send, on every path, goes to the sender; a session it changes now names the upper-cased code |
| `Coordination.CurrentRoom` | server.js:77-78 | a room is found exactly when the sender's `roomCode` is set and registered, and it is that code |
| `Coordination.OnRelay` | server.js:76-103 | `paddle_move` and `ball_update` change no state and only append sends carrying the relayed payload |
| `Coordination.OnScoreUpdate` | server.js:105-116 | `score_update` keeps the sessions, sockets and set of codes, and only appends `score_sync` sends with the received pair |
| `Coordination.OnMessage` | server.js:27-117 | every message keeps the sockets, the sessions and their `playerId`s, registers no code other than the generated one, and only appends to the sends |
| `Coordination.OnClose` | server.js:120-134 | closing keeps the sessions, marks the socket closed, never adds a room, and only appends `player_disconnected` sends to other, open sockets |
| `Coordination.Broadcast` | server.js:110-115 | the `score_sync` loop makes one send per player, each carrying the message |
| `Coordination.GameStarts` | server.js:67-73 | the `game_start` loop makes one send per player, each a `game_start` with the given total and a player number between 1 and the number of players |
| `Coordination.RelayToOthers` | server.js:80-87 | the relay loop makes at most one send per player, each carrying the message |
| `Coordination.NotifyOthers` | server.js:124-130 | the close loop makes at most one send per player, each a `player_disconnected` to an open socket |
| `Coordination.BroadcastReachesEverySlot` | server.js:110-115 | the `score_sync` loop sends exactly one message per player, to slot i's connection at position i |
| `Coordination.GameStartsNumberSlots` | server.js:67-73 | the `game_start` loop tells slot i, in slot order, that it is player i+1 of the given total |
| `Coordination.RelayReachesExactlyOthers` | server.js:80-87 | the relay loop delivers the unchanged message to a connection if and only if some player with that connection has an id different from the sender's |
| `Coordination.NotifyReachesOpenOthers` | server.js:124-130 | the close loop sends `player_disconnected` to a connection if and only if it belongs to a player with another id whose socket is OPEN |
| `Coordination.ConnectPreservesInv` | server.js:20-22 | accepting a new connection with a fresh `playerId` and no room keeps the invariant |
| `Coordination.CreatePreservesInv` | server.js:28-33 | `create_room` keeps the invariant when the generated code has the generator's shape, even when it replaces an existing room |
| `Coordination.JoinPreservesInv` | server.js:41-73 | `join_room` keeps the invariant: the full-room guard keeps every room at two players or fewer |
| `Coordination.MessagePreservesInv` | server.js:27-117 | every message keeps each registered room at one or two players, each tied to the session whose `playerId` it carries, under a code of the generator's shape |
| `Coordination.ClosePreservesInv` | server.js:120-134 | the close handler keeps the invariant |
| `Coordination.CreateRoomRegistersHost` | server.js:28-39 | `create_room` maps the code to a room whose players are exactly the sender and whose scores are [0, 0], leaves other rooms alone, sets the sender's `roomCode` to the code, and replies only to the sender with `room_created` carrying the code and its `playerId` |
| `Coordination.CreateCollisionEvictsPlayers` | server.js:29-33 | with no collision check, a player of a room already under the generated code is dropped from the registry while its `roomCode` still names that code |
| `Coordination.SecondCreateOrphansFirstRoom` | server.js:29-33 | after two `create_room` calls and a close, the first room is still registered with the closed connection as its only player, and the second is gone |
| `Coordination.JoinIgnoresCase` | server.js:42 | `join_room` with two codes that upper-case alike has identical effects |
| `Coordination.JoinLowercaseFindsRoom` | server.js:42-60 | joining with the lower-case variant of a registered code behaves exactly like joining with the code and is never answered "Room not found" |
| `Coordination.JoinUnknownCodeFails` | server.js:42-49 | an unregistered code sends `error{"Room not found"}` to the sender only and changes neither the registry nor any session |
| `Coordination.JoinFullRoomFails` | server.js:51-57 | a room with two or more players sends `error{"Room is full"}` to the sender only and changes neither the room nor any session |
| `Coordination.JoinAppendsGuest` | server.js:59-73 | a successful join appends the sender after the host, keeps the scores, sets the sender's `roomCode` to the upper-cased code, and sends `join_confirmed` to the sender, then `game_start` 1 of 2 to the host, then `game_start` 2 of 2 to the sender |
| `Coordination.CreatorMayJoinOwnRoom` | server.js:51-60 | the creator's own `join_room` succeeds, fills both slots with itself, and sends it both `game_start` messages |
| `Coordination.RelayReachesOnlyPeers` | server.js:76-103 | `paddle_move` and `ball_update` change no state, append sends of the unchanged payload to exactly the sender's room mates with another id, never to the sender, and do nothing when the sender's `roomCode` is not registered |
| `Coordination.ScoreUpdateSyncsEveryone` | server.js:105-116 | `score_update` replaces the room's scores with the received pair and sends `score_sync` with it to every player in slot order, the sender included; with no registered room it does nothing |
| `Coordination.UnknownTypeIgnored` | server.js:27 | a message whose `type` is none of the five handled ones changes nothing and sends nothing |
| `Coordination.CloseTearsDownRoom` | server.js:120-133 | closing a connection whose non-empty `roomCode` is registered deletes that room, marks the socket closed, notifies exactly the other-id players whose sockets are open, and a later `join_room` with that code gets "Room not found" |
| `Coordination.ClosePairNotifiesPeerOnce` | server.js:124-130 | in a room of two distinct players, closing one sends exactly one `player_disconnected`, to the other, if its socket is open, and nothing otherwise |
| `Coordination.EmptyCodeRoomSurvivesClose` | server.js:121 | a connection whose `roomCode` is the empty string leaves the registry untouched when it closes |
| `Coordination.GuestJoinsHost` | server.js:41-73 | a second connection joining a one-player room with a code that upper-cases to the room's is appended after the host, gets the code as its `roomCode`, and is confirmed before `game_start` 1 of 2 goes to the host and 2 of 2 to it |
| `Coordination.TwoPlayerJoin` | server.js:28-73 | from two fresh connections X and Y: X creates a room under a generated code and Y joins with that code in lower case; the registry then holds the code with X then Y at scores [0, 0], both sessions name the code, and the sends are `room_created` to X, `join_confirmed` with the upper-case code to Y, `game_start` 1 of 2 to X and 2 of 2 to Y |
| `Coordination.TwoPlayerRally` | server.js:76-116 | in a room holding X then Y, X's `score_update` [3, 1] is stored and sent to X and Y in that order, then Y's `paddle_move` is sent to X only; sessions and open sockets unchanged |
| `Coordination.TwoPlayerSession` | server.js:28-116 | the two scenarios above chained: the final registry and the complete ordered list of the seven sends |
| `Server.SessionCoordinator.constructor` | server.js:12 | the registry starts empty, with no connections and nothing sent |
| `Server.SessionCoordinator.Connect` | server.js:20-22 | a new connection gets its minted `playerId`, no room, and an open socket |
| `Server.SessionCoordinator.HandleMessage` | server.js:24-117 | dispatches on the message type to the handlers below and keeps the invariant; the result is `OnMessage` of the previous state |
| `Server.SessionCoordinator.CreateRoom` | server.js:28-39 | the new state is `OnCreateRoom` of the old one |
| `Server.SessionCoordinator.JoinRoom` | server.js:41-74 | the new state is `OnJoinRoom` of the old one; the loop sends `game_start` slot by slot |
| `Server.SessionCoordinator.Relay` | server.js:76-103 | the new state is `OnRelay` of the old one; the loop skips players with the sender's id |
| `Server.SessionCoordinator.ScoreUpdate` | server.js:105-116 | the new state is `OnScoreUpdate` of the old one |
| `Server.SessionCoordinator.Close` | server.js:120-134 | the new state is `OnClose` of the old one, and the invariant is kept |
| `Server.SessionCoordinator.NotifyDisconnect` | server.js:124-130 | the loop appends exactly `NotifyOthers` of the room's players, the closing id and the OPEN sockets, and changes nothing else |
| `Client.LocalScores` | public/game.js:172-178 | the local pair is the received pair, reordered so that index 0 is the local player's: the host's for player 1, the guest's otherwise |
| `Client.Verdict` | public/game.js:713-720 | the game-over text is always shown, and it announces a win exactly when `myScore > botScore` |
| `Client.AfterGameOver` | public/game.js:708-720 | `gameOver` switches the game off, shows a verdict, and changes no other field |
| `Client.AfterSyncScores` | public/game.js:169-186 | `syncScores` sets the local scores to the player's view of the pair, never switches a game on, and changes nothing but the scores, `gameOn` and the verdict |
| `Client.ServePosition` | public/game.js:744-748 | the serve position is on the centre line, two units in from an end, in the half the ball was in |
| `Client.AfterInit` | public/game.js:225-272 | `init` runs once: the first call switches the game on at 0 : 0 in an arena of a valid depth; later calls change nothing; the role, player number and verdict are untouched |
| `Client.AfterStartGame` | public/game.js:360-375 | `startGame` leaves the game initialised at 0 : 0, on unless an initialised game had been switched off, and keeps the role, player number, verdict and opponent paddle |
| `Client.StartGameServes` | public/game.js:360-375 | after `startGame` the scores are 0 : 0, the game is on unless an initialised game had been switched off, and the ball is served on the centre line in the half it was in (the far half for a new game), with its direction untouched or freshly drawn |
| `Client.ViewsMirror` | public/game.js:172-178 | player 1 reads the pair in host order, so the host reads back exactly the `[myScore, botScore]` it sent, and player 2 reads it swapped |
| `Client.SyncScoresEndsAtMax` | public/game.js:169-186 | after `syncScores` the local scores are the player's view of the pair; the game stays on exactly when it was on and neither score reached 5; when it ends, the local player is announced the winner exactly when its score is larger |
| `Client.AtMostOneWinner` | public/game.js:708-719 | one score pair ends the game for the host exactly when it ends it for the guest; then at most one is told it won, exactly one if the scores differ, and neither on a tie |
| `Client.Socket.constructor` | public/game.js:15 | a new browser socket has sent nothing and has not been asked to close |
| `Client.Socket.Send` | public/game.js:104-106 | `ws.send` appends the frame and leaves the close request alone |
| `Client.Socket.Close` | public/game.js:150 | `ws.close` records the close request and sends nothing |
| `Client.WebSocketClient.constructor` | public/game.js:6-12 | a new client has no socket, is not host, has no room code and is not connected |
| `Client.WebSocketClient.Connect` | public/game.js:14-15 | `connect` installs a fresh socket with nothing sent, leaving the flags alone |
| `Client.WebSocketClient.OnOpen` | public/game.js:17-18 | `onopen` sets `connected` |
| `Client.WebSocketClient.OnClose` | public/game.js:27-28 | `onclose` clears `connected` |
| `Client.WebSocketClient.HandleMessage` | public/game.js:36-101 | `room_created` sets `isHost` and `roomCode`; `join_confirmed` clears `isHost` and sets `roomCode`; `game_start` makes the game multiplayer as the announced player and then is `AfterStartGame` (scores reset, ball served); `opponent_move` is applied only while the game is on, `ball_sync` only by a non-host while the game is on, `score_sync` only while the game is on; `player_disconnected`, `error` and the types outside the eight handled ones change no game field and send nothing; `connected` never changes |
| `Client.WebSocketClient.CreateRoom` | public/game.js:103-109 | sends `create_room` exactly when connected |
| `Client.WebSocketClient.JoinRoom` | public/game.js:111-118 | sends `join_room` with the given code exactly when connected |
| `Client.WebSocketClient.SendPaddlePosition` | public/game.js:120-127 | sends `paddle_move` exactly when connected and the game is on |
| `Client.WebSocketClient.SendBallUpdate` | public/game.js:129-137 | sends `ball_update` exactly when connected, host, and the game is on |
| `Client.WebSocketClient.SendScoreUpdate` | public/game.js:139-146 | sends `score_update` exactly when connected, host, and the game is on |
| `Client.WebSocketClient.Close` | public/game.js:148-152 | asks the socket, if any, to close, and sends nothing |
| `Client.PongGame.constructor` | public/game.js:156-167 | a new game owns a new client that points back at it; it is not initialised, not on, not multiplayer, and player 1 |
| `Client.PongGame.BotButton` | public/game.js:189-192 | `bot-button` clears `isMultiplayer` and then the game's fields become `AfterStartGame` of that view; nothing is sent and the socket is not asked to close |
| `Client.PongGame.MultiplayerButton` | public/game.js:194-199 | `multiplayer-button` sets `isMultiplayer`, leaves every other game field alone, and gives the client a fresh socket with nothing sent, its flags unchanged |
| `Client.PongGame.SubmitCode` | public/game.js:209-212 | the typed code is upper-cased before `joinRoom`, so a `join_room` with `Upper(input)` is sent exactly when connected |
| `Client.PongGame.Init` | public/game.js:225-272 | the game's fields become `AfterInit` of the old ones, for the direction `resetBall` draws |
| `Client.PongGame.UpdateGameDimensions` | public/game.js:377-396 | `arenaDepth` becomes 14 on a narrow screen and 20 otherwise; nothing else changes |
| `Client.PongGame.StartCountdown` | public/game.js:740-748 | the ball moves at once to its serve position for the current arena depth; nothing else changes |
| `Client.PongGame.StartGame` | public/game.js:360-375 | the game's fields become `AfterStartGame` of the old ones (see `StartGameServes`), and the host of a multiplayer game reports 0 : 0 when connected and on |
| `Client.PongGame.UpdateScore` | public/game.js:694-706 | in a multiplayer game the host sends its `[myScore, botScore]`, subject to the `sendScoreUpdate` guard |
| `Client.PongGame.UpdateOpponentPaddle` | public/game.js:582-585 | stores the relayed paddle position |
| `Client.PongGame.SyncBall` | public/game.js:587-590 | stores the relayed ball position and direction |
| `Client.PongGame.GameOver` | public/game.js:708-725 | switches the game off, announces a win exactly when `myScore > botScore`, and closes the socket in a multiplayer game |
| `Client.PongGame.SyncScores` | public/game.js:169-186 | the game's fields become `AfterSyncScores` of the old ones; the socket is closed exactly when a multiplayer game ends |

## Left out

- Transport and HTTP: the `ws` server, `express.static`, `server.listen`, and JSON framing are not modelled. Messages are datatypes.
- Malformed messages: a body that fails `JSON.parse`, or a `join_room` without `roomCode`, throws in the source. The model has no such messages.
- `generateRoomCode` and `uuidv4` are oracle inputs. A generated code is only required to be at most six characters from 0-9 and A-Z. The connection's `playerId` is a parameter of `Connect`.
- `toUpperCase` is modelled over ASCII only. Unicode case mapping is not modelled.
- Socket states: CONNECTING and CLOSING are not modelled. A socket is either OPEN (in `open`) or not, and it leaves `open` only when its own close handler runs. So a peer whose socket is already CLOSING when the other player's close handler runs still gets `player_disconnected` in the model, while server.js:125 skips it because its `readyState` is not OPEN.
- Sends to closed sockets: the outbox records every `ws.send` call the source makes. The `ws` library drops sends to a closed socket, and that dropping is not modelled. Only the close handler checks `readyState`, and the model keeps that check.
- Concurrency: Node runs one handler at a time, so each handler is one atomic method.
- Scores are modelled as a pair of integers, and positions and directions as reals. JavaScript numbers are doubles, but the relay copies these values without computing on them.
- Client presentation: DOM updates, `alert`, audio, the Three.js scene and camera are not modelled. This includes `setupPlayer2Camera` and `invertControls` on `game_start` with player 2.
- Client physics and input: `updateBall`, `checkPaddleHit`, the bot, keyboard and touch handling, `restartGame`'s `resetBall`, and `gamePaused` are not modelled. These are the callers of the `send*` methods; they are floating-point numerics and UI.
- `startCountdown`: only the immediate move of the ball to its serve position is modelled. The timer that counts down, draws a new direction after three seconds and unpauses the game is not modelled, so `ballDir` keeps its value until `syncBall` sets it.
- Random ball directions: the direction `resetBall` draws in `init` (through `makeBall`) is the parameter `drawn` of `Init`, `StartGame` and `HandleMessage`. The ball speed and spin it also sets are not modelled.
- Arena dimensions: of the values `updateGameDimensions` and `init` set, only `arenaDepth` is modelled, because the serve position depends on it. The width, height, paddle and ball sizes, speed and touch sensitivity are not modelled, and neither is the rest of `handleResize`.
- Menu buttons other than `bot-button`, `multiplayer-button` and `submit-code` are not modelled (`create-room`, `join-room`, `back-button`, `return-to-menu`). Apart from showing and hiding screens, they only call the modelled `createRoom` and `close`, or reload the page. `restartGame` and `location.reload` are not modelled either.
- Client values before `init`: `myScore` and `botScore` are `undefined` in the source. The model leaves them unconstrained. `gameOn` is `undefined`, and the model treats it as false, as every guard does. `init` also creates the scene, camera, lights and paddles, which the model leaves out. `arenaDepth` and the ball are unconstrained until `init` sets them.
- Client.PongGame.SyncScores: requires `initialized`, because `maxScore` is `undefined` before `init`. Its only caller runs it while the game is on, which implies that `init` has run.
