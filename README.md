# rps_online: the room and match engine

This project models the engine behind a two-player rock-paper-scissors web game, with proofs. Two players meet in a room named by a four-letter code. Each sends a move. When both moves are in, the server decides the round, credits the winner in the user store and broadcasts the result.

The project has four Dafny modules:

- `Wrappers` (`wrappers.dfy`): `Option` and `Result`. `None` stands for Python's `None`. An `Err` result stands for a Python exception.
- `Users` (`users.dfy`): the user store that the engine touches. It is a map from username to win count. The module also holds the username check `IsValidUsername`, which is the same in `server.py` and `src/player.py`.
- `Server` (`server.py`), the live version. It has:
  - `GameServer`, a class holding the four global pieces of state: the room registry `players`, the single global round dict `choice`, the win counters and the log of emitted socket events;
  - one method per handler. Each method is proved equal to a pure transition function (`CreateRoom`, `JoinRoom`, `LeaveRoom`, `StartGameEvents`, `ChoiceStep`), and the properties are proved about those functions (for `ChoiceStep`, in the lemma `ChoiceStepSpec`).
- `Player` (`src/player.py`), the older variant of the round protocol. It has slots `choice1`/`choice2` that start as `""`, the spelling `"scissors"`, and the result strings `"player1_win"`/`"player2_win"`/`"TIE"`. The class `ChoiceTable` holds the slots, the wins and the events.

What is modelled, and how:

- **Exceptions.** Each exception below is an explicit status. The state is left as Python leaves it at the point of the raise. A payload is a record of the keys the handlers read, so a payload missing one of them, and the KeyError that would follow, is not modelled. The cases are:
  - a KeyError in `winning_combinations` when the first move is unknown and differs from the second;
  - a failed subscript of `None` when the winner is not in the user store;
  - a KeyError from `players.pop` when the room is already gone;
  - in `src/player.py`, a KeyError from `data[player_choice]`.
- **Python truthiness.** The slot tests `choice['player1'] and choice['player2']` count `None` and `""` as unset. The model says the same.
- **The global `choice` dict.** It is a map from key to optional move, because the handler writes `choice[player_number]` for whatever key it is given. `HasSides` (kept by `GameServer.Valid`) says the two side keys are always present.
- **Random room codes.** The code is a parameter. No uniqueness check exists, and none is modelled: creating a room under a code already in use overwrites that room.
- **The web session.** The session values the handlers read are a `Session(username, roomId)` value. The handlers take it and return the updated one. A `roomId` of `None` stands for the `None` that `_start_session` stores. A session without the key, which `session.get('player_room_id', '')` would read as `''`, is not distinguished from it.
- **Socket emits.** They are appended to an event log. Each event records the room it was sent to.

The main lemmas:

- **`PlayMatch`**, proved by induction in both modules. Take any sequence of rounds that start from unset slots. In each round both sides move, in either order, chosen per round. Then:
  - every round resolves exactly once;
  - the slots end unset;
  - each user's wins rise by exactly the number of rounds that user won, judged by an independent statement of the beats relation;
  - each round emits a fixed number of events, one of which is a result.
- **`SharedSlotsAcrossRooms`**. Because the slots are one global dict, a valid player1 move made in one room and a valid player2 move made in another room resolve together. The result goes to the second room, and the win is credited to a name from the second room's payload.

The model follows the code where a reader might expect otherwise:

- One might expect leaving a room that is already gone to be a no-op. In the code it raises.
- One might expect creating a room to check whether the code is already in use. The code does not check.
- One might expect one pair of pending moves per room. The code keeps one global pair.
- One might expect a move outside the three to be rejected up front. In the code it only fails when it is the first move of an unequal pair.
- One might expect the win count to be incremented atomically. `_update_winner` reads the count and writes it back plus one.

## Model

| member | source | states |
|---|---|---|
| Users.IsValidUsername | server.py:38-48 | a username is valid exactly when no character of it is '/' (src/player.py:96-106 is the same function) |
| Users.IncrementWins | server.py:306-307 | succeeds exactly when the user is in the store; then that user's wins rise by one and every other user's are unchanged; a missing user is the error |
| Server.GetWinner | server.py:268-292 | "TIE" exactly on equal moves; a lookup error exactly when the moves differ and the first is not rock/paper/scissor; for a known first move, 'player1' exactly when it beats the second by the beats relation, 'player2' otherwise |
| Server.GetWinnerSwap | server.py:282-292 | on two different valid moves the result is decisive, and swapping the arguments swaps 'player1' and 'player2' |
| Server.BeatsIsCycle | server.py:282-286 | rock beats scissor, scissor beats paper, paper beats rock; no move beats itself; of two different valid moves exactly one beats the other |
| Server.CreateRoom | server.py:568-571 | the code maps to (creator, None), overwriting any room with that code; every other room is unchanged and no room is removed |
| Server.JoinRoom | server.py:587-603 | "does not exist" exactly when the code is unknown, "room is full" exactly when player2 is not None; both leave the registry unchanged; otherwise player2 becomes the joiner, player1 and every other room unchanged |
| Server.LeaveRoom | server.py:672-683 | nothing happens unless the session's room is the requested one; then the room is removed and no other room changes, or the pop raises when the room is already gone |
| Server.MessageText | server.py:363-372 | the four texts the page shows; exactly the started text begins with "Game Started! ", and it is followed by player1, " VS " and player2 |
| Server.MessageTextDistinct | server.py:363-372 | two different messages have different texts, unless both are started games |
| Server.GetGameMessage | server.py:348-374 | a member sees "waiting" exactly when player2 is unset and "started" with both names exactly when it is set; a non-member sees "full" or "please join" by the same test |
| Server.EnterGame | server.py:617-634 | a message exactly when the room is in the registry, and it is the message for that room's players and the session user |
| Server.StartGameEvents | server.py:648-661 | no event without a registered session room; otherwise the player info first, and the "show game" event exactly when both players are set |
| Server.Cleared | server.py:340-341 | both side slots are None afterwards and every other key keeps its value |
| Server.ChoiceStep | server.py:322-345 | one handler call on the global slots and store; both side keys stay present |
| Server.ChoiceStepSpec | server.py:322-345 | the submitted slot is written; while either side is unset there is no resolution, wins are unchanged and one wait event names the submitting side; with both set, one result event carrying the winner and one opponent-choice event go out, the winner gains exactly one win (none on a tie) and both slots end None; it raises exactly on a lookup failure or a winner missing from the store, leaving the written slot and everything else as they were |
| Server.ResubmitDoesNotResolve | server.py:324-345 | either side submitting twice while the other side is unset resolves nothing: that side's slot holds the second move, the wins are unchanged, and two waits naming that side go out |
| Server.WinnerName | server.py:334 | `data[winner]`: a player1 win names the payload's player1 and a player2 win its player2 |
| Server.WinnerNameSwap | server.py:330-334 | on two different valid moves, swapping the moves and the two names of the payload credits the same user |
| Server.SharedSlotsAcrossRooms | server.py:322-341 | for any valid player1 move in one room and any valid player2 move in another, from unset slots: the first call only waits, the second resolves the pair with no raise, the result event carrying the winner of the two moves goes to the second room, and the winner's name is taken from the second payload and credited exactly once (nothing on a tie) |
| Server.Run | server.py:686-698 | successive handler calls keep both side keys in the global slots |
| Server.RoundCredit | server.py:295-307 | crediting one round's winner leaves the same users in the store and raises each user's wins by exactly the number of that round's wins the beats relation gives them |
| Server.PlayRound | server.py:322-345 | one round from unset slots, with either side submitting first: no raise, the first call emits one wait naming the first side, both slots None at the end, wins rise by the beats relation, three events of which exactly one is a result |
| Server.PlayMatch | server.py:322-345 | any match from unset slots, each round in either submission order: every round resolves exactly once, the slots end unset, each user's wins rise by exactly the rounds that user won, 3 events per round and exactly one result per round |
| Server.RoomScenario | server.py:568-634 | in the registry the scenario builds: after alice creates "ABCD" she sees waiting; after bob joins both alice and bob see the game started, with the text "Game Started! alice VS bob"; carol's join gets "room is full" with nothing changed, and she then sees the full room; alice's leave restores the registry as it was |
| Server.RoundScenario | server.py:322-345 | alice's rock against bob's scissor gives alice exactly one more win and bob none, with exactly one result event |
| Server.GameServer.constructor | server.py:29-32 | an empty registry, both slots None, the given store and no events |
| Server.GameServer.CreateGame | server.py:568-573 | the registry becomes CreateRoom of the old one and the session's room becomes the code |
| Server.GameServer.JoinGame | server.py:587-603 | the registry and status are JoinRoom of the old registry; the session moves to the room only on success |
| Server.GameServer.StartGame | server.py:648-661 | StartGameEvents of the registry and the session's room are appended to the log |
| Server.GameServer.LeaveGame | server.py:672-683 | the registry and status are LeaveRoom of the old registry; on a matching session, the session room is cleared and one clear-game event naming the player is emitted, raising or not |
| Server.GameServer.UpdateWinner | server.py:295-307 | a user found in the store gains exactly one win and no one else changes; for a missing user the store is unchanged and the call reports the raise |
| Server.GameServer.HandlePlayerChoice | server.py:310-345 | slots, wins, appended events and status are exactly ChoiceStep of the old state, and both side keys stay present |
| Player.GetWinner | src/player.py:9-33 | 'TIE' exactly on equal moves; a lookup error exactly when the moves differ and the first is not rock/paper/scissors; otherwise 'player1_win' exactly when the first beats the second, else 'player2_win'; nothing else is returned |
| Player.GetWinnerSwap | src/player.py:23-33 | on two different valid moves the result is decisive, and swapping the arguments swaps 'player1_win' and 'player2_win' |
| Player.CreditResult | src/player.py:36-54 | 'player1_win' raises player1's wins by exactly one and 'player2_win' player2's, leaving everyone else unchanged; any other result string, 'TIE' included, leaves the store unchanged; crediting a missing user is the error |
| Player.DataGet | src/player.py:93 | `data[key]` succeeds exactly for the four keys of the payload and gives the named player for "player1" and "player2" |
| Player.Written | src/player.py:72-77 | `choice1` is written exactly when player_choice is "player1", `choice2` for any other value, and the other slot keeps its value |
| Player.ChoiceStep | src/player.py:72-93 | one handler call on choice1/choice2 and the store; the set of users in the store is unchanged |
| Player.ChoiceStepSpec | src/player.py:57-93 | with a slot empty after the write: no resolution, no win change, and a wait event carrying data[player_choice] (raising when there is no such key); with both non-empty: one result event, the winner credited by exactly one (none on 'TIE') and both slots reset to ''; it raises exactly on a lookup failure or a missing winner, with the written slots kept |
| Player.PlayRound | src/player.py:72-93 | one round from empty slots, with either side submitting first, gives exactly a wait naming the first submitter and then the result, both slots '' at the end, and wins raised by the beats relation |
| Player.PlayMatch | src/player.py:57-93 | any match from empty slots, each round in either submission order: every round resolves exactly once, the slots end '', each user's wins rise by exactly the rounds that user won, 2 events per round and exactly one result per round |
| Player.ChoiceTable.constructor | src/player.py:5-6 | both slots start as '', with the given store and no events |
| Player.ChoiceTable.UpdateWinner | src/player.py:36-54 | the store becomes CreditResult of the old one; on a raise it is unchanged |
| Player.ChoiceTable.HandlePlayerChoice | src/player.py:57-93 | slots, wins, appended events and status are exactly ChoiceStep of the old state |

## Left out

- Player.DataGet: the payload is a record with exactly the keys the handlers read. A payload carrying other keys is not modelled, so `data[player_choice]` for such a key is a KeyError in the model where the code would read the value. A key missing from the payload is not modelled either. The same holds for Server.ChoiceData: a missing key would raise in `server.py`, for example `data['player_room_id']` after the slot write, and the model does not capture that.
- Flask routes, templates, redirects, flash messages and the session store: the session values the handlers read are plain parameters and results.
- Socket.IO channel membership (`join_room`, `leave_room`) and transport: emits are only appended to a log.
- `_generate_room_code`: randomness; the code is a parameter.
- Concurrency: the code has no locking, so only sequential handler calls are modelled. Interleavings inside a handler are not modelled, nor is the lost update that two concurrent read-modify-writes of `wins` can cause.
- MongoDB queries other than the wins read-modify-write. This covers signup, login, bcrypt, uuid, username availability, username editing, and the leaderboard and profile rank. These belong to authentication and CRUD, not to the engine.
- The `'coices'` and `'choices'` payload fields are recorded as the slot map at emit time. Python passes the dict by reference, and that is not modelled.
- The message texts are fixed strings in `MessageText`. The model has no HTML escaping or rendering.
- `models.py`, `src/models.py`, `src/create_user.py` and `src/forms.py` hold authentication and form glue, so they are left out. `src/game_session.py` and `src/create_player.py` are entirely commented out, so they are dead code and left out too.
