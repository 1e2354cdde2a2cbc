/**
 * The room and match engine of server.py: the process-wide room registry
 * `players`, the single global round state `choice`, the user store's win
 * counters and the socket emits, gathered in one object `GameServer` whose
 * methods are the request and event handlers, each specified by a pure
 * transition function of the state it changes.
 */
module Server {
  import opened Wrappers
  import Users

  // ---------------------------------------------------------------- outcome

  /** The three moves the browser client sends, with server.py's spelling "scissor". */
  predicate IsChoice(c: string)
  {
    c == "rock" || c == "paper" || c == "scissor"
  }

  /** The beats relation written out directly, independently of the lookup table. */
  predicate Beats(a: string, b: string)
  {
    || (a == "rock" && b == "scissor")
    || (a == "scissor" && b == "paper")
    || (a == "paper" && b == "rock")
  }

  const WinningCombinations: map<string, string> :=
    map["rock" := "scissor", "scissor" := "paper", "paper" := "rock"]

  /** The strings "TIE", "player1" and "player2" that `_get_winner` returns. */
  datatype Winner = Tie | Player1 | Player2

  function Swap(w: Winner): Winner
  {
    match w
    case Tie => Tie
    case Player1 => Player2
    case Player2 => Player1
  }

  /**
   * `_get_winner`. Equal moves tie. Otherwise the first move is looked up in
   * the table, which raises a KeyError (the error result, carrying the key)
   * for a move outside the three; a known first move wins exactly when it
   * beats the second, and loses in every other case, including an unknown
   * second move.
   */
  function GetWinner(choice1: string, choice2: string): (r: Result<Winner, string>)
    ensures r == Ok(Tie) <==> choice1 == choice2
    ensures r.Err? <==> choice1 != choice2 && !IsChoice(choice1)
    ensures r.Err? ==> r.error == choice1
    ensures choice1 != choice2 && IsChoice(choice1) ==>
              (r == Ok(Player1) <==> Beats(choice1, choice2)) &&
              (r == Ok(Player2) <==> !Beats(choice1, choice2))
  {
    if choice1 == choice2 then Ok(Tie)
    else if choice1 !in WinningCombinations then Err(choice1)
    else if WinningCombinations[choice1] == choice2 then Ok(Player1)
    else Ok(Player2)
  }

  /** On two different valid moves, swapping the sides swaps the winner. */
  lemma GetWinnerSwap(a: string, b: string)
    requires IsChoice(a) && IsChoice(b) && a != b
    ensures GetWinner(a, b).Ok? && GetWinner(b, a).Ok?
    ensures GetWinner(b, a).value == Swap(GetWinner(a, b).value)
    ensures GetWinner(a, b).value != Tie
  {
  }

  /**
   * The beats relation is the cycle rock, scissor, paper, rock: of two
   * different valid moves exactly one beats the other, and no move beats itself.
   */
  lemma BeatsIsCycle(a: string, b: string)
    requires IsChoice(a) && IsChoice(b)
    ensures Beats("rock", "scissor") && Beats("scissor", "paper") && Beats("paper", "rock")
    ensures a == b ==> !Beats(a, b)
    ensures a != b ==> Beats(a, b) != Beats(b, a)
  {
  }

  // ---------------------------------------------------------------- rooms

  /** A registry entry: `player1` is always a string, `player2` is None until someone joins. */
  datatype Room = Room(player1: string, player2: Option<string>)

  /** The two values of the web session the handlers read and write. */
  datatype Session = Session(username: string, roomId: Option<string>)

  /** Python truthiness of a string slot that may hold None. */
  predicate Truthy(v: Option<string>)
  {
    v.Some? && v.value != ""
  }

  /** `create_game_page`: the room stored under `code`, overwriting any room that already had it. */
  function CreateRoom(players: map<string, Room>, code: string, creator: string): (r: map<string, Room>)
    ensures code in r && r[code] == Room(creator, None)
    ensures r.Keys == players.Keys + {code}
    ensures forall k :: k in players && k != code ==> r[k] == players[k]
  {
    players[code := Room(creator, None)]
  }

  datatype JoinStatus = Joined | RoomFull | RoomDoesNotExist

  datatype JoinResult = JoinResult(players: map<string, Room>, status: JoinStatus)

  /**
   * `join_game_page`: an unknown code and a room whose `player2` is not None
   * are rejected with the registry unchanged; otherwise the joiner becomes
   * `player2` and nothing else changes.
   */
  function JoinRoom(players: map<string, Room>, code: string, joiner: string): (r: JoinResult)
    ensures r.status == RoomDoesNotExist <==> code !in players
    ensures r.status == RoomFull <==> code in players && players[code].player2.Some?
    ensures r.status != Joined ==> r.players == players
    ensures r.status == Joined ==>
              && r.players.Keys == players.Keys
              && r.players[code] == Room(players[code].player1, Some(joiner))
              && forall k :: k in players && k != code ==> r.players[k] == players[k]
  {
    if code !in players then JoinResult(players, RoomDoesNotExist)
    else if players[code].player2.Some? then JoinResult(players, RoomFull)
    else JoinResult(players[code := players[code].(player2 := Some(joiner))], Joined)
  }

  /** `RoomMissing` is the KeyError of `players.pop` when the room is already gone. */
  datatype LeaveStatus = Left | NotInRoom | RoomMissing

  datatype LeaveResult = LeaveResult(players: map<string, Room>, status: LeaveStatus)

  /**
   * The registry part of `leave_game_page`: the requested room is removed
   * only when it is the session's room, and no other room is touched.
   */
  function LeaveRoom(players: map<string, Room>, sessionRoom: Option<string>, roomId: string): (r: LeaveResult)
    ensures r.status == NotInRoom <==> sessionRoom != Some(roomId)
    ensures r.status == RoomMissing <==> sessionRoom == Some(roomId) && roomId !in players
    ensures r.status != Left ==> r.players == players
    ensures r.status == Left ==>
              && roomId in players
              && r.players.Keys == players.Keys - {roomId}
              && forall k :: k in r.players ==> r.players[k] == players[k]
  {
    if sessionRoom != Some(roomId) then LeaveResult(players, NotInRoom)
    else if roomId !in players then LeaveResult(players, RoomMissing)
    else LeaveResult(players - {roomId}, Left)
  }

  /** What the game page shows. */
  datatype GameMessage = WaitingForPlayer2 | GameStarted(player1: string, player2: string) | RoomIsFull | PleaseJoin

  /**
   * The text shown for each message. Exactly the "started" text begins with
   * "Game Started! ", and it names player1 and then player2.
   */
  function MessageText(m: GameMessage): (t: string)
    ensures (|t| >= 14 && t[..14] == "Game Started! ") <==> m.GameStarted?
    ensures m.GameStarted? ==>
              && |t| == 18 + |m.player1| + |m.player2|
              && t[14..14 + |m.player1|] == m.player1
              && t[14 + |m.player1|..18 + |m.player1|] == " VS "
              && t[18 + |m.player1|..] == m.player2
  {
    // Each fixed text is two literals joined, which is the same string: the
    // verifier reads the first character of a short literal only, and the
    // prefix clause needs it.
    match m
    case WaitingForPlayer2 =>
      var t := "Waiting for Player2" + " join... Send to your friend the Room ID code.";
      assert t[0] == 'W';
      t
    case GameStarted(p1, p2) => "Game Started! " + p1 + " VS " + p2
    case RoomIsFull =>
      var t := "Sorry, this room is full." + " Please try another room.";
      assert t[0] == 'S';
      t
    case PleaseJoin =>
      var t := "Please click 'Join Game'" + " to join this room";
      assert t[0] == 'P';
      t
  }

  /** The page can tell the messages apart, except two started games whose names collide. */
  lemma MessageTextDistinct(m: GameMessage, m': GameMessage)
    requires m != m' && !(m.GameStarted? && m'.GameStarted?)
    ensures MessageText(m) != MessageText(m')
  {
  }

  predicate IsMember(player1: string, player2: Option<string>, user: string)
  {
    user == player1 || player2 == Some(user)
  }

  /**
   * `_get_game_message`: a member of the room is told whether the game has
   * started (a non-empty `player2`), anybody else whether the room is full.
   */
  function GetGameMessage(player1: string, player2: Option<string>, sessionUser: string): (m: GameMessage)
    ensures m == WaitingForPlayer2 <==> IsMember(player1, player2, sessionUser) && !Truthy(player2)
    ensures m.GameStarted? <==> IsMember(player1, player2, sessionUser) && Truthy(player2)
    ensures m.GameStarted? ==> m.player1 == player1 && Some(m.player2) == player2
    ensures m == RoomIsFull <==> !IsMember(player1, player2, sessionUser) && Truthy(player2)
    ensures m == PleaseJoin <==> !IsMember(player1, player2, sessionUser) && !Truthy(player2)
  {
    if sessionUser == player1 || player2 == Some(sessionUser) then
      if !Truthy(player2) then WaitingForPlayer2 else GameStarted(player1, player2.value)
    else
      if Truthy(player2) then RoomIsFull else PleaseJoin
  }

  /** `enter_game_page`: the message for a room in the registry, None (a redirect) otherwise. */
  function EnterGame(players: map<string, Room>, code: string, sessionUser: string): (r: Option<GameMessage>)
    ensures r.Some? <==> code in players
    ensures r.Some? ==> r.value == GetGameMessage(players[code].player1, players[code].player2, sessionUser)
  {
    if code in players then Some(GetGameMessage(players[code].player1, players[code].player2, sessionUser))
    else None
  }

  // ---------------------------------------------------------------- events

  /** The slots of the global `choice` dict, keyed as the dict is. */
  type Slots = map<string, Option<string>>

  /** The socket emits, in order, each with the room it was emitted to. */
  datatype Event =
    | ResultEvent(room: string, result: Winner, choices: Slots)
    | UpdateOpponentChoice(room: string, choices: Slots)
    | Wait(room: string, personWaiting: string)
    | SendInfoPlayer(room: string, player1: string, player2: Option<string>)
    | ShowGame(room: string)
    | ClearGame(room: string, player: string)

  /**
   * `start_game`: for the session's room, the player info is sent, followed
   * by the "show game" event exactly when the room has both players.
   */
  function StartGameEvents(players: map<string, Room>, sessionRoom: Option<string>): (es: seq<Event>)
    ensures sessionRoom.None? || sessionRoom.value !in players ==> es == []
    ensures sessionRoom.Some? && sessionRoom.value in players ==>
              && 1 <= |es| <= 2
              && es[0] == SendInfoPlayer(sessionRoom.value, players[sessionRoom.value].player1, players[sessionRoom.value].player2)
              && (|es| == 2 ==> es[1] == ShowGame(sessionRoom.value))
    ensures (exists code :: ShowGame(code) in es) <==>
              && sessionRoom.Some? && sessionRoom.value in players
              && players[sessionRoom.value].player1 != ""
              && Truthy(players[sessionRoom.value].player2)
  {
    if sessionRoom.None? || sessionRoom.value !in players then []
    else
      var code := sessionRoom.value;
      var room := players[code];
      [SendInfoPlayer(code, room.player1, room.player2)]
      + (if room.player1 != "" && Truthy(room.player2) then [ShowGame(code)] else [])
  }

  // ---------------------------------------------------------------- rounds

  predicate HasSides(c: Slots)
  {
    "player1" in c && "player2" in c
  }

  predicate BothSet(c: Slots)
    requires HasSides(c)
  {
    Truthy(c["player1"]) && Truthy(c["player2"])
  }

  /** Both sides' slots set back to None, any other key untouched. */
  function Cleared(c: Slots): (r: Slots)
    ensures HasSides(r) && r["player1"] == None && r["player2"] == None
    ensures r.Keys == c.Keys + {"player1", "player2"}
    ensures forall k :: k in c && k != "player1" && k != "player2" ==> r[k] == c[k]
  {
    c["player1" := None]["player2" := None]
  }

  /** The fields of the `register_player_choice` payload. */
  datatype ChoiceData = ChoiceData(playerNumber: string, choice: string, roomId: string, player1: string, player2: string)

  /** `data[winner]`: the username on the winning side. */
  function WinnerName(d: ChoiceData, w: Winner): (name: string)
    requires w != Tie
    ensures w == Player1 ==> name == d.player1
    ensures w == Player2 ==> name == d.player2
  {
    if w == Player1 then d.player1 else d.player2
  }

  /**
   * The credited user does not depend on the seating: swapping the two moves
   * and the two names of the payload credits the same user.
   */
  lemma WinnerNameSwap(d: ChoiceData, a: string, b: string)
    requires IsChoice(a) && IsChoice(b) && a != b
    ensures GetWinner(a, b).Ok? && GetWinner(a, b).value != Tie
    ensures var swapped := d.(player1 := d.player2, player2 := d.player1);
            WinnerName(swapped, GetWinner(b, a).value) == WinnerName(d, GetWinner(a, b).value)
  {
    GetWinnerSwap(a, b);
  }

  datatype Failure = UnknownChoice(key: string) | UnknownUser(name: string)

  /** Whether a handler returned or raised. */
  datatype Status = Done | Raised(failure: Failure)

  datatype Step = Step(choice: Slots, wins: map<string, nat>, emitted: seq<Event>, status: Status)

  /** The wins store after a resolved round: the winner gains one, a tie changes nothing. */
  ghost predicate Credited(before: map<string, nat>, after: map<string, nat>, d: ChoiceData, w: Winner)
  {
    if w == Tie then after == before else Users.IncrementedOnce(before, after, WinnerName(d, w))
  }

  /** One call of `handle_player_choice` on the global slots `choice` and the store `wins`. */
  function ChoiceStep(choice: Slots, wins: map<string, nat>, d: ChoiceData): (r: Step)
    requires HasSides(choice)
    ensures HasSides(r.choice)
  {
    var c := choice[d.playerNumber := Some(d.choice)];
    if BothSet(c) then
      match GetWinner(c["player1"].value, c["player2"].value)
      case Err(key) => Step(c, wins, [], Raised(UnknownChoice(key)))
      case Ok(w) =>
        var credit := if w == Tie then Ok(wins) else Users.IncrementWins(wins, WinnerName(d, w));
        match credit
        case Err(name) => Step(c, wins, [], Raised(UnknownUser(name)))
        case Ok(wins') =>
          Step(Cleared(c), wins', [ResultEvent(d.roomId, w, c), UpdateOpponentChoice(d.roomId, c)], Done)
    else
      Step(c, wins, [Wait(d.roomId, d.playerNumber)], Done)
  }

  /**
   * What one call of `handle_player_choice` does to the global slots and the
   * store. The submitted side's slot is written first. While either
   * side is still unset nothing resolves: wins stay and a wait event goes
   * out. With both set, the round resolves once: one result event and one
   * opponent-choice event carry the slots, the winner gains one win, and both
   * slots are cleared. A raise leaves the written slot and everything else
   * as it was.
   */
  lemma ChoiceStepSpec(choice: Slots, wins: map<string, nat>, d: ChoiceData)
    requires HasSides(choice)
    ensures var r := ChoiceStep(choice, wins, d);
            var c := choice[d.playerNumber := Some(d.choice)];
              !BothSet(c) ==> r == Step(c, wins, [Wait(d.roomId, d.playerNumber)], Done)
    ensures var r := ChoiceStep(choice, wins, d);
            var c := choice[d.playerNumber := Some(d.choice)];
              BothSet(c) && r.status == Done ==>
                && r.choice == Cleared(c)
                && |r.emitted| == 2
                && r.emitted[0].ResultEvent?
                && r.emitted[0] == ResultEvent(d.roomId, r.emitted[0].result, c)
                && GetWinner(c["player1"].value, c["player2"].value) == Ok(r.emitted[0].result)
                && r.emitted[1] == UpdateOpponentChoice(d.roomId, c)
                && Credited(wins, r.wins, d, r.emitted[0].result)
    ensures var r := ChoiceStep(choice, wins, d);
            var c := choice[d.playerNumber := Some(d.choice)];
              r.status.Raised? ==> BothSet(c) && r.choice == c && r.wins == wins && r.emitted == []
    ensures var r := ChoiceStep(choice, wins, d);
            var c := choice[d.playerNumber := Some(d.choice)];
              r.status.Raised? <==>
                && BothSet(c)
                && var w := GetWinner(c["player1"].value, c["player2"].value);
                   w.Err? || (w.value != Tie && WinnerName(d, w.value) !in wins)
  {
  }

  /**
   * The same side submitting twice before the other answers does not resolve:
   * the slot holds the second move, wins are unchanged, two waits go out.
   */
  lemma ResubmitDoesNotResolve(choice: Slots, wins: map<string, nat>, d1: ChoiceData, d2: ChoiceData)
    requires HasSides(choice)
    requires d1.playerNumber == d2.playerNumber
    requires || (d1.playerNumber == "player1" && !Truthy(choice["player2"]))
             || (d1.playerNumber == "player2" && !Truthy(choice["player1"]))
    ensures var pn := d1.playerNumber;
            var s1 := ChoiceStep(choice, wins, d1);
            var s2 := ChoiceStep(s1.choice, s1.wins, d2);
            && s2.choice == choice[pn := Some(d2.choice)]
            && s2.wins == wins
            && s1.emitted + s2.emitted == [Wait(d1.roomId, pn), Wait(d2.roomId, pn)]
  {
  }

  /**
   * The slots are one global dict, not one per room: a move made in one room
   * and a move made in another resolve together, the result goes to the
   * room of the second, and the win is credited to a name of the second
   * payload.
   */
  lemma SharedSlotsAcrossRooms(wins: map<string, nat>, a: ChoiceData, b: ChoiceData)
    requires a.playerNumber == "player1" && b.playerNumber == "player2" && a.roomId != b.roomId
    requires IsChoice(a.choice) && IsChoice(b.choice) && b.player1 in wins && b.player2 in wins
    ensures GetWinner(a.choice, b.choice).Ok?
    ensures var s1 := ChoiceStep(map["player1" := None, "player2" := None], wins, a);
            var s2 := ChoiceStep(s1.choice, s1.wins, b);
            var w := GetWinner(a.choice, b.choice).value;
            && s1.emitted == [Wait(a.roomId, "player1")]
            && s2.status == Done
            && s2.emitted[0] == ResultEvent(b.roomId, w, map["player1" := Some(a.choice), "player2" := Some(b.choice)])
            && Credited(wins, s2.wins, b, w)
  {
  }

  // ---------------------------------------------------------------- matches
  //
  // The match lemmas below run parallel to those of module Player; the two
  // are kept apart because their events, slots and steps differ.

  /** A sequence of handler calls, each on the state the previous one left; the first raise is reported. */
  function Run(choice: Slots, wins: map<string, nat>, ds: seq<ChoiceData>): (r: Step)
    requires HasSides(choice)
    ensures HasSides(r.choice)
    decreases |ds|
  {
    if ds == [] then Step(choice, wins, [], Done)
    else
      var s := ChoiceStep(choice, wins, ds[0]);
      var rest := Run(s.choice, s.wins, ds[1..]);
      Step(rest.choice, rest.wins, s.emitted + rest.emitted, if s.status.Raised? then s.status else rest.status)
  }

  /**
   * One round of a match: both players of a room, their moves, and which
   * side submits first (the client sends a move whenever a player clicks).
   */
  datatype Round = Round(roomId: string, player1: string, player2: string, choice1: string, choice2: string, p2First: bool)

  /** The `player_number` of the side that submits first in `rd`. */
  function FirstSide(rd: Round): string
  {
    if rd.p2First then "player2" else "player1"
  }

  predicate ValidRound(rd: Round, users: set<string>)
  {
    IsChoice(rd.choice1) && IsChoice(rd.choice2) && rd.player1 in users && rd.player2 in users
  }

  /** The rounds as the client plays them: in each, both sides submit, in the round's order. */
  function Moves(rounds: seq<Round>): seq<ChoiceData>
  {
    if rounds == [] then []
    else
      var rd := rounds[0];
      var m1 := ChoiceData("player1", rd.choice1, rd.roomId, rd.player1, rd.player2);
      var m2 := ChoiceData("player2", rd.choice2, rd.roomId, rd.player1, rd.player2);
      (if rd.p2First then [m2, m1] else [m1, m2]) + Moves(rounds[1..])
  }

  /** The wins `user` earns over `rounds`, by the beats relation. */
  function WinsOf(rounds: seq<Round>, user: string): nat
  {
    if rounds == [] then 0
    else
      var rd := rounds[0];
      (if Beats(rd.choice1, rd.choice2) && rd.player1 == user then 1 else 0)
      + (if Beats(rd.choice2, rd.choice1) && rd.player2 == user then 1 else 0)
      + WinsOf(rounds[1..], user)
  }

  function ResultCount(es: seq<Event>): nat
  {
    if es == [] then 0 else (if es[0].ResultEvent? then 1 else 0) + ResultCount(es[1..])
  }

  lemma {:induction false} ResultCountAppend(a: seq<Event>, b: seq<Event>)
    ensures ResultCount(a + b) == ResultCount(a) + ResultCount(b)
  {
    if a != [] {
      assert (a + b)[0] == a[0];
      assert (a + b)[1..] == a[1..] + b;
      ResultCountAppend(a[1..], b);
    } else {
      assert a + b == b;
    }
  }

  /** The store after one valid round: the winner by the beats relation gains one win. */
  lemma RoundCredit(wins: map<string, nat>, rd: Round)
    requires ValidRound(rd, wins.Keys)
    ensures var w := GetWinner(rd.choice1, rd.choice2).value;
            var name := if w == Player1 then rd.player1 else rd.player2;
            var wins' := if w == Tie then wins else Users.IncrementWins(wins, name).value;
            && wins'.Keys == wins.Keys
            && forall u :: u in wins ==> wins'[u] == wins[u] + WinsOf([rd], u)
  {
    if rd.choice1 != rd.choice2 {
      BeatsIsCycle(rd.choice1, rd.choice2);
    }
    assert [rd][1..] == [];
  }

  /**
   * One round from unset slots, whichever side submits first: a wait naming
   * that side, then the resolution, crediting by the beats relation.
   */
  lemma PlayRound(choice: Slots, wins: map<string, nat>, rd: Round)
    requires HasSides(choice) && !Truthy(choice["player1"]) && !Truthy(choice["player2"])
    requires ValidRound(rd, wins.Keys)
    ensures var ds := Moves([rd]);
            var s1 := ChoiceStep(choice, wins, ds[0]);
            var s2 := ChoiceStep(s1.choice, s1.wins, ds[1]);
            && s1.status == Done && s2.status == Done
            && s1.emitted == [Wait(rd.roomId, FirstSide(rd))]
            && s2.choice["player1"] == None && s2.choice["player2"] == None
            && s2.wins.Keys == wins.Keys
            && (forall u :: u in wins ==> s2.wins[u] == wins[u] + WinsOf([rd], u))
            && |s1.emitted + s2.emitted| == 3
            && ResultCount(s1.emitted + s2.emitted) == 1
  {
    var ds := Moves([rd]);
    var c1 := choice[ds[0].playerNumber := Some(ds[0].choice)];
    var s1 := ChoiceStep(choice, wins, ds[0]);
    assert s1 == Step(c1, wins, [Wait(rd.roomId, FirstSide(rd))], Done);
    var c := c1[ds[1].playerNumber := Some(ds[1].choice)];
    assert c["player1"] == Some(rd.choice1) && c["player2"] == Some(rd.choice2);
    assert BothSet(c);
    var s2 := ChoiceStep(s1.choice, s1.wins, ds[1]);
    var w := GetWinner(rd.choice1, rd.choice2).value;
    var wins' := if w == Tie then wins else Users.IncrementWins(wins, WinnerName(ds[1], w)).value;
    assert s2 == Step(Cleared(c), wins', [ResultEvent(rd.roomId, w, c), UpdateOpponentChoice(rd.roomId, c)], Done);
    RoundCredit(wins, rd);
    assert ResultCount(s1.emitted) == 0;
    ResultCountAppend(s1.emitted, s2.emitted);
    assert ResultCount(s2.emitted) == 1 by {
      assert s2.emitted[1..][1..] == [];
    }
  }

  /** Two handler calls, then the rest. */
  lemma RunTwo(choice: Slots, wins: map<string, nat>, ds: seq<ChoiceData>)
    requires HasSides(choice) && |ds| >= 2
    ensures var s1 := ChoiceStep(choice, wins, ds[0]);
            var s2 := ChoiceStep(s1.choice, s1.wins, ds[1]);
            var rest := Run(s2.choice, s2.wins, ds[2..]);
            var r := Run(choice, wins, ds);
            && r.choice == rest.choice && r.wins == rest.wins
            && r.emitted == (s1.emitted + s2.emitted) + rest.emitted
            && (s1.status == Done && s2.status == Done ==> r.status == rest.status)
  {
    var s1 := ChoiceStep(choice, wins, ds[0]);
    var r1 := Run(s1.choice, s1.wins, ds[1..]);
    assert Run(choice, wins, ds).emitted == s1.emitted + r1.emitted;
    assert ds[1..][0] == ds[1] && ds[1..][1..] == ds[2..];
    var s2 := ChoiceStep(s1.choice, s1.wins, ds[1]);
    var rest := Run(s2.choice, s2.wins, ds[2..]);
    assert r1.emitted == s2.emitted + rest.emitted;
    assert s1.emitted + (s2.emitted + rest.emitted) == (s1.emitted + s2.emitted) + rest.emitted;
  }

  /** Running the two moves of a round, then the rest. */
  lemma RunMovesCons(choice: Slots, wins: map<string, nat>, rounds: seq<Round>)
    requires HasSides(choice) && rounds != []
    ensures var pair := Moves([rounds[0]]);
            var s1 := ChoiceStep(choice, wins, pair[0]);
            var s2 := ChoiceStep(s1.choice, s1.wins, pair[1]);
            var rest := Run(s2.choice, s2.wins, Moves(rounds[1..]));
            var r := Run(choice, wins, Moves(rounds));
            && r.choice == rest.choice && r.wins == rest.wins
            && r.emitted == (s1.emitted + s2.emitted) + rest.emitted
            && (s1.status == Done && s2.status == Done ==> r.status == rest.status)
  {
    var ds := Moves(rounds);
    var pair := Moves([rounds[0]]);
    assert Moves([rounds[0]][1..]) == [] by { assert [rounds[0]][1..] == []; }
    assert ds[0] == pair[0] && ds[1] == pair[1] && ds[2..] == Moves(rounds[1..]);
    RunTwo(choice, wins, ds);
  }

  lemma WinsOfCons(rounds: seq<Round>, u: string)
    requires rounds != []
    ensures WinsOf(rounds, u) == WinsOf([rounds[0]], u) + WinsOf(rounds[1..], u)
  {
    assert [rounds[0]][1..] == [];
  }

  /**
   * A whole match, played round by round from unset slots: every round
   * resolves exactly once, the slots end unset, each player's wins rise by
   * exactly the rounds that player won, and each round emits three events,
   * one of them a result.
   */
  lemma {:induction false} PlayMatch(choice: Slots, wins: map<string, nat>, rounds: seq<Round>)
    requires HasSides(choice) && !Truthy(choice["player1"]) && !Truthy(choice["player2"])
    requires forall i :: 0 <= i < |rounds| ==> ValidRound(rounds[i], wins.Keys)
    ensures var r := Run(choice, wins, Moves(rounds));
            && r.status == Done
            && !Truthy(r.choice["player1"]) && !Truthy(r.choice["player2"])
            && r.wins.Keys == wins.Keys
            && (forall u :: u in wins ==> r.wins[u] == wins[u] + WinsOf(rounds, u))
            && |r.emitted| == 3 * |rounds|
            && ResultCount(r.emitted) == |rounds|
  {
    if rounds != [] {
      var pair := Moves([rounds[0]]);
      PlayRound(choice, wins, rounds[0]);
      var s1 := ChoiceStep(choice, wins, pair[0]);
      var s2 := ChoiceStep(s1.choice, s1.wins, pair[1]);
      PlayMatch(s2.choice, s2.wins, rounds[1..]);
      var rest := Run(s2.choice, s2.wins, Moves(rounds[1..]));
      RunMovesCons(choice, wins, rounds);
      ResultCountAppend(s1.emitted + s2.emitted, rest.emitted);
      forall u | u in wins
        ensures Run(choice, wins, Moves(rounds)).wins[u] == wins[u] + WinsOf(rounds, u)
      {
        WinsOfCons(rounds, u);
      }
    }
  }

  // ---------------------------------------------------------------- scenarios

  /**
   * Create "ABCD" as alice, join as bob: both are in the room and see the game
   * started; a third user is refused and sees the room full; alice leaving
   * removes the room.
   */
  lemma RoomScenario(players: map<string, Room>)
    requires "ABCD" !in players
    ensures var created := CreateRoom(players, "ABCD", "alice");
            var joined := JoinRoom(created, "ABCD", "bob");
            var third := JoinRoom(joined.players, "ABCD", "carol");
            var left := LeaveRoom(joined.players, Some("ABCD"), "ABCD");
            && EnterGame(created, "ABCD", "alice") == Some(WaitingForPlayer2)
            && joined.status == Joined && joined.players["ABCD"] == Room("alice", Some("bob"))
            && EnterGame(joined.players, "ABCD", "alice") == Some(GameStarted("alice", "bob"))
            && EnterGame(joined.players, "ABCD", "bob") == Some(GameStarted("alice", "bob"))
            && MessageText(EnterGame(joined.players, "ABCD", "bob").value) == "Game Started! alice VS bob"
            && third.status == RoomFull && third.players == joined.players
            && EnterGame(third.players, "ABCD", "carol") == Some(RoomIsFull)
            && left.status == Left && left.players == players
  {
  }

  /** alice plays rock, bob scissor: alice gains exactly one win and bob none. */
  lemma RoundScenario(wins: map<string, nat>)
    requires "alice" in wins && "bob" in wins
    ensures var rd := Round("ABCD", "alice", "bob", "rock", "scissor", false);
            var r := Run(map["player1" := None, "player2" := None], wins, Moves([rd]));
            && r.status == Done
            && r.wins["alice"] == wins["alice"] + 1 && r.wins["bob"] == wins["bob"]
            && ResultCount(r.emitted) == 1
  {
    var rd := Round("ABCD", "alice", "bob", "rock", "scissor", false);
    PlayMatch(map["player1" := None, "player2" := None], wins, [rd]);
    assert [rd][1..] == [];
    assert Beats("rock", "scissor") && !Beats("scissor", "rock");
    assert WinsOf([rd], "alice") == 1 && WinsOf([rd], "bob") == 0;
  }

  // ---------------------------------------------------------------- the server

  /** The module-level state of server.py: `players`, `choice`, the users' wins and the emitted events. */
  class GameServer {
    var players: map<string, Room>
    var choice: Slots
    var wins: map<string, nat>
    var events: seq<Event>

    /** `choice` always holds both sides' keys: it starts with them and nothing removes a key. */
    ghost predicate Valid()
      reads this`choice
    {
      HasSides(choice)
    }

    constructor (store: map<string, nat>)
      ensures Valid()
      ensures players == map[] && choice == map["player1" := None, "player2" := None]
      ensures wins == store && events == []
    {
      players := map[];
      choice := map["player1" := None, "player2" := None];
      wins := store;
      events := [];
    }

    /** `create_game_page`, with the random room code as a parameter. */
    method CreateGame(code: string, session: Session) returns (session': Session)
      modifies this`players
      ensures players == CreateRoom(old(players), code, session.username)
      ensures session' == session.(roomId := Some(code))
    {
      session' := session.(roomId := Some(code));
      players := players[code := Room(session.username, None)];
    }

    /** `join_game_page`: the session moves to the room only when the join succeeds. */
    method JoinGame(code: string, session: Session) returns (status: JoinStatus, session': Session)
      modifies this`players
      ensures JoinRoom(old(players), code, session.username) == JoinResult(players, status)
      ensures session' == if status == Joined then session.(roomId := Some(code)) else session
    {
      session' := session;
      if code in players {
        if players[code].player2 == None {
          players := players[code := players[code].(player2 := Some(session.username))];
          session' := session.(roomId := Some(code));
          status := Joined;
        } else {
          status := RoomFull;
        }
      } else {
        status := RoomDoesNotExist;
      }
    }

    /** `start_game`: reads the registry and emits to the session's room. */
    method StartGame(session: Session)
      modifies this`events
      ensures events == old(events) + StartGameEvents(players, session.roomId)
    {
      var code := session.roomId;
      if code.Some? && code.value in players {
        var player1 := players[code.value].player1;
        var player2 := players[code.value].player2;
        events := events + [SendInfoPlayer(code.value, player1, player2)];
        if player1 != "" && Truthy(player2) {
          events := events + [ShowGame(code.value)];
        }
      }
    }

    /**
     * `leave_game_page`: when the session's room is the requested one, the
     * session forgets it, the room is told the player left, and the room is
     * popped from the registry (raising if it is already gone).
     */
    method LeaveGame(roomId: string, player: string, session: Session) returns (status: LeaveStatus, session': Session)
      modifies this`players, this`events
      ensures LeaveRoom(old(players), session.roomId, roomId) == LeaveResult(players, status)
      ensures status == NotInRoom ==> session' == session && events == old(events)
      ensures status != NotInRoom ==>
                session' == session.(roomId := None) && events == old(events) + [ClearGame(roomId, player)]
    {
      session' := session;
      status := NotInRoom;
      if session.roomId == Some(roomId) {
        session' := session.(roomId := None);
        events := events + [ClearGame(roomId, player)];
        if roomId in players {
          players := players - {roomId};
          status := Left;
        } else {
          status := RoomMissing;
        }
      }
    }

    /** `_update_winner`: read the winner's wins and write back one more; a missing user raises. */
    method UpdateWinner(playerName: string) returns (found: bool)
      modifies this`wins
      ensures Users.IncrementWins(old(wins), playerName) == if found then Ok(wins) else Err(playerName)
      ensures !found ==> wins == old(wins)
    {
      found := playerName in wins;
      if found {
        var userWins := wins[playerName];
        wins := wins[playerName := userWins + 1];
      }
    }

    /** `handle_player_choice`: one step of the round protocol on the global slots. */
    method HandlePlayerChoice(d: ChoiceData) returns (status: Status)
      requires Valid()
      modifies this`choice, this`wins, this`events
      ensures Valid()
      ensures var r := ChoiceStep(old(choice), old(wins), d);
              choice == r.choice && wins == r.wins && events == old(events) + r.emitted && status == r.status
    {
      choice := choice[d.playerNumber := Some(d.choice)];
      ghost var step := ChoiceStep(old(choice), old(wins), d);
      if Truthy(choice["player1"]) && Truthy(choice["player2"]) {
        var winner := GetWinner(choice["player1"].value, choice["player2"].value);
        if winner.Err? {
          assert step == Step(choice, wins, [], Raised(UnknownChoice(winner.error)));
          return Raised(UnknownChoice(winner.error));
        }
        if winner.value != Tie {
          var name := WinnerName(d, winner.value);
          var found := UpdateWinner(name);
          if !found {
            assert step == Step(choice, wins, [], Raised(UnknownUser(name)));
            return Raised(UnknownUser(name));
          }
        }
        assert step == Step(Cleared(choice), wins,
                            [ResultEvent(d.roomId, winner.value, choice), UpdateOpponentChoice(d.roomId, choice)], Done);
        events := events + [ResultEvent(d.roomId, winner.value, choice)];
        events := events + [UpdateOpponentChoice(d.roomId, choice)];
        choice := choice["player1" := None];
        choice := choice["player2" := None];
        status := Done;
        assert events == old(events) + step.emitted;
      } else {
        events := events + [Wait(d.roomId, d.playerNumber)];
        status := Done;
      }
    }
  }
}
