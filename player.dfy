/**
 * The older round protocol of src/player.py: two string slots `choice1` and
 * `choice2` that start as "", the spelling "scissors", and results
 * "player1_win", "player2_win" and "TIE" that `_update_winner` dispatches on.
 */
module Player {
  import opened Wrappers
  import Users

  // ---------------------------------------------------------------- outcome

  const TieResult: string := "TIE"
  const Player1Win: string := "player1_win"
  const Player2Win: string := "player2_win"

  predicate IsChoice(c: string)
  {
    c == "rock" || c == "paper" || c == "scissors"
  }

  /** The beats relation written out directly, independently of the lookup table. */
  predicate Beats(a: string, b: string)
  {
    || (a == "rock" && b == "scissors")
    || (a == "scissors" && b == "paper")
    || (a == "paper" && b == "rock")
  }

  const WinningCombinations: map<string, string> :=
    map["rock" := "scissors", "scissors" := "paper", "paper" := "rock"]

  /**
   * `_get_winner`: equal moves tie; a first move outside the table raises a
   * KeyError (the error result, carrying the key); otherwise the first side
   * wins exactly when its move beats the other.
   */
  function GetWinner(choice1: string, choice2: string): (r: Result<string, string>)
    ensures r == Ok(TieResult) <==> choice1 == choice2
    ensures r.Err? <==> choice1 != choice2 && !IsChoice(choice1)
    ensures r.Err? ==> r.error == choice1
    ensures r.Ok? ==> r.value == TieResult || r.value == Player1Win || r.value == Player2Win
    ensures choice1 != choice2 && IsChoice(choice1) ==>
              (r == Ok(Player1Win) <==> Beats(choice1, choice2)) &&
              (r == Ok(Player2Win) <==> !Beats(choice1, choice2))
  {
    if choice1 == choice2 then Ok(TieResult)
    else if choice1 !in WinningCombinations then Err(choice1)
    else if WinningCombinations[choice1] == choice2 then Ok(Player1Win)
    else Ok(Player2Win)
  }

  function SwapResult(result: string): string
  {
    if result == Player1Win then Player2Win else if result == Player2Win then Player1Win else result
  }

  /** On two different valid moves, swapping the sides swaps "player1_win" and "player2_win". */
  lemma GetWinnerSwap(a: string, b: string)
    requires IsChoice(a) && IsChoice(b) && a != b
    ensures GetWinner(a, b).Ok? && GetWinner(b, a).Ok?
    ensures GetWinner(b, a).value == SwapResult(GetWinner(a, b).value)
    ensures GetWinner(a, b).value != TieResult
  {
  }

  /**
   * `_update_winner`: "player1_win" credits player1 and "player2_win" player2,
   * each by exactly one; any other result, "TIE" among them, changes nothing.
   * Crediting a user missing from the store raises.
   */
  function CreditResult(wins: map<string, nat>, result: string, player1: string, player2: string)
    : (r: Result<map<string, nat>, string>)
    ensures result == Player1Win ==>
              (r.Ok? <==> player1 in wins) && (r.Ok? ==> Users.IncrementedOnce(wins, r.value, player1))
    ensures result == Player2Win ==>
              (r.Ok? <==> player2 in wins) && (r.Ok? ==> Users.IncrementedOnce(wins, r.value, player2))
    ensures result != Player1Win && result != Player2Win ==> r == Ok(wins)
  {
    if result == Player1Win then Users.IncrementWins(wins, player1)
    else if result == Player2Win then Users.IncrementWins(wins, player2)
    else Ok(wins)
  }

  // ---------------------------------------------------------------- rounds

  /**
   * The handler's `data` dict, as a record of exactly the keys "player1",
   * "player2", "choice" and "room_id"; a payload with other keys is not modelled.
   */
  datatype ChoiceData = ChoiceData(player1: string, player2: string, choice: string, roomId: string)

  /** `data[key]`; None is the KeyError of a key the dict does not have. */
  function DataGet(d: ChoiceData, key: string): (r: Option<string>)
    ensures r.Some? <==> key in {"player1", "player2", "choice", "room_id"}
    ensures key == "player1" ==> r == Some(d.player1)
    ensures key == "player2" ==> r == Some(d.player2)
  {
    if key == "player1" then Some(d.player1)
    else if key == "player2" then Some(d.player2)
    else if key == "choice" then Some(d.choice)
    else if key == "room_id" then Some(d.roomId)
    else None
  }

  datatype Event = ResultEvent(room: string, result: string) | Wait(room: string, personWaiting: string)

  datatype Failure = UnknownChoice(key: string) | UnknownUser(name: string) | MissingKey(key: string)

  datatype Status = Done | Raised(failure: Failure)

  datatype Step = Step(choice1: string, choice2: string, wins: map<string, nat>, emitted: seq<Event>, status: Status)

  /** The slots after the write: "player1" writes `choice1`, any other value `choice2`. */
  function Written(choice1: string, choice2: string, d: ChoiceData, playerChoice: string): (r: (string, string))
    ensures playerChoice == "player1" ==> r.0 == d.choice && r.1 == choice2
    ensures playerChoice != "player1" ==> r.0 == choice1 && r.1 == d.choice
  {
    if playerChoice == "player1" then (d.choice, choice2) else (choice1, d.choice)
  }

  /** One call of `handle_player_choice` on the slots `choice1`, `choice2` and the store `wins`. */
  function ChoiceStep(choice1: string, choice2: string, wins: map<string, nat>, d: ChoiceData, playerChoice: string)
    : (r: Step)
    ensures r.wins.Keys == wins.Keys
  {
    var (c1, c2) := Written(choice1, choice2, d, playerChoice);
    if c1 != "" && c2 != "" then
      match GetWinner(c1, c2)
      case Err(key) => Step(c1, c2, wins, [], Raised(UnknownChoice(key)))
      case Ok(result) =>
        match CreditResult(wins, result, d.player1, d.player2)
        case Err(name) => Step(c1, c2, wins, [], Raised(UnknownUser(name)))
        case Ok(wins') => Step("", "", wins', [ResultEvent(d.roomId, result)], Done)
    else
      match DataGet(d, playerChoice)
      case None => Step(c1, c2, wins, [], Raised(MissingKey(playerChoice)))
      case Some(person) => Step(c1, c2, wins, [Wait(d.roomId, person)], Done)
  }

  /**
   * What one call of `handle_player_choice` does. After the write, an empty slot means
   * no resolution and no win change, and the wait event names
   * `data[player_choice]`. With both slots non-empty the round resolves
   * once: the result is credited, one result event goes out, and both slots
   * are reset to "". A raise leaves the written slots as they are.
   */
  lemma ChoiceStepSpec(choice1: string, choice2: string, wins: map<string, nat>, d: ChoiceData, playerChoice: string)
    ensures var r := ChoiceStep(choice1, choice2, wins, d, playerChoice);
            var (c1, c2) := Written(choice1, choice2, d, playerChoice);
            (c1 == "" || c2 == "") ==>
              && r.choice1 == c1 && r.choice2 == c2 && r.wins == wins
              && (r.status == Done <==> DataGet(d, playerChoice).Some?)
              && (r.status == Done ==> r.emitted == [Wait(d.roomId, DataGet(d, playerChoice).value)])
              && (r.status.Raised? ==> r.emitted == [])
    ensures var r := ChoiceStep(choice1, choice2, wins, d, playerChoice);
            var (c1, c2) := Written(choice1, choice2, d, playerChoice);
            c1 != "" && c2 != "" && r.status == Done ==>
              && r.choice1 == "" && r.choice2 == ""
              && GetWinner(c1, c2).Ok?
              && r.emitted == [ResultEvent(d.roomId, GetWinner(c1, c2).value)]
              && (GetWinner(c1, c2).value == Player1Win ==> Users.IncrementedOnce(wins, r.wins, d.player1))
              && (GetWinner(c1, c2).value == Player2Win ==> Users.IncrementedOnce(wins, r.wins, d.player2))
              && (GetWinner(c1, c2).value == TieResult ==> r.wins == wins)
    ensures var r := ChoiceStep(choice1, choice2, wins, d, playerChoice);
            var (c1, c2) := Written(choice1, choice2, d, playerChoice);
            c1 != "" && c2 != "" && r.status.Raised? ==>
              r.choice1 == c1 && r.choice2 == c2 && r.wins == wins && r.emitted == []
    ensures var r := ChoiceStep(choice1, choice2, wins, d, playerChoice);
            var (c1, c2) := Written(choice1, choice2, d, playerChoice);
            c1 != "" && c2 != "" ==>
              (r.status.Raised? <==>
                 GetWinner(c1, c2).Err? || CreditResult(wins, GetWinner(c1, c2).value, d.player1, d.player2).Err?)
  {
  }

  // ---------------------------------------------------------------- matches
  //
  // The match lemmas below run parallel to those of module Server; the two
  // are kept apart because their events, slots and steps differ.

  /** One handler call: the `data` dict and the `player_choice` argument. */
  datatype Submission = Submission(data: ChoiceData, playerChoice: string)

  /** A sequence of handler calls, each on the state the previous one left; the first raise is reported. */
  function Run(choice1: string, choice2: string, wins: map<string, nat>, subs: seq<Submission>): Step
    decreases |subs|
  {
    if subs == [] then Step(choice1, choice2, wins, [], Done)
    else
      var s := ChoiceStep(choice1, choice2, wins, subs[0].data, subs[0].playerChoice);
      var rest := Run(s.choice1, s.choice2, s.wins, subs[1..]);
      Step(rest.choice1, rest.choice2, rest.wins, s.emitted + rest.emitted,
           if s.status.Raised? then s.status else rest.status)
  }

  /** One round: both players of a room, their moves, and which side submits first. */
  datatype Round = Round(roomId: string, player1: string, player2: string, choice1: string, choice2: string, p2First: bool)

  /** The name of the player who submits first in `rd`. */
  function FirstPlayer(rd: Round): string
  {
    if rd.p2First then rd.player2 else rd.player1
  }

  predicate ValidRound(rd: Round, users: set<string>)
  {
    IsChoice(rd.choice1) && IsChoice(rd.choice2) && rd.player1 in users && rd.player2 in users
  }

  /** The rounds as the client plays them: in each, both sides submit, in the round's order. */
  function Moves(rounds: seq<Round>): seq<Submission>
  {
    if rounds == [] then []
    else
      var rd := rounds[0];
      var m1 := Submission(ChoiceData(rd.player1, rd.player2, rd.choice1, rd.roomId), "player1");
      var m2 := Submission(ChoiceData(rd.player1, rd.player2, rd.choice2, rd.roomId), "player2");
      (if rd.p2First then [m2, m1] else [m1, m2]) + Moves(rounds[1..])
  }

  /** The wins `user` earns over `rounds`, by the beats relation. */
  function WinsOf(rounds: seq<Round>, user: string): nat
  {
    if rounds == [] then 0
    else
      var rd := rounds[0];
      (if Beats(rd.choice1, rd.choice2) && rd.player1 == user then 1 else 0)
      + (if Beats(rd.choice2, rd.choice1) && rd.player2 == user then 1 else 0)
      + WinsOf(rounds[1..], user)
  }

  function ResultCount(es: seq<Event>): nat
  {
    if es == [] then 0 else (if es[0].ResultEvent? then 1 else 0) + ResultCount(es[1..])
  }

  lemma {:induction false} ResultCountAppend(a: seq<Event>, b: seq<Event>)
    ensures ResultCount(a + b) == ResultCount(a) + ResultCount(b)
  {
    if a != [] {
      assert (a + b)[0] == a[0];
      assert (a + b)[1..] == a[1..] + b;
      ResultCountAppend(a[1..], b);
    } else {
      assert a + b == b;
    }
  }

  /**
   * One round from empty slots, whichever side submits first: a wait naming
   * that player, then the resolution, crediting by the beats relation.
   */
  lemma PlayRound(wins: map<string, nat>, rd: Round)
    requires ValidRound(rd, wins.Keys)
    ensures var ms := Moves([rd]);
            var s1 := ChoiceStep("", "", wins, ms[0].data, ms[0].playerChoice);
            var s2 := ChoiceStep(s1.choice1, s1.choice2, s1.wins, ms[1].data, ms[1].playerChoice);
            && s1.status == Done && s2.status == Done
            && s2.choice1 == "" && s2.choice2 == ""
            && s2.wins.Keys == wins.Keys
            && (forall u :: u in wins ==> s2.wins[u] == wins[u] + WinsOf([rd], u))
            && s1.emitted + s2.emitted == [Wait(rd.roomId, FirstPlayer(rd)), ResultEvent(rd.roomId, GetWinner(rd.choice1, rd.choice2).value)]
  {
    var ms := Moves([rd]);
    var s1 := ChoiceStep("", "", wins, ms[0].data, ms[0].playerChoice);
    if rd.p2First {
      assert s1 == Step("", rd.choice2, wins, [Wait(rd.roomId, rd.player2)], Done);
    } else {
      assert s1 == Step(rd.choice1, "", wins, [Wait(rd.roomId, rd.player1)], Done);
    }
    var result := GetWinner(rd.choice1, rd.choice2).value;
    var wins' := CreditResult(wins, result, rd.player1, rd.player2).value;
    var s2 := ChoiceStep(s1.choice1, s1.choice2, s1.wins, ms[1].data, ms[1].playerChoice);
    assert s2 == Step("", "", wins', [ResultEvent(rd.roomId, result)], Done);
    if rd.choice1 != rd.choice2 {
      assert Beats(rd.choice1, rd.choice2) != Beats(rd.choice2, rd.choice1);
    }
    forall u | u in wins
      ensures wins'[u] == wins[u] + WinsOf([rd], u)
    {
      assert [rd][1..] == [];
    }
  }

  /** Two handler calls, then the rest. */
  lemma RunTwo(choice1: string, choice2: string, wins: map<string, nat>, subs: seq<Submission>)
    requires |subs| >= 2
    ensures var s1 := ChoiceStep(choice1, choice2, wins, subs[0].data, subs[0].playerChoice);
            var s2 := ChoiceStep(s1.choice1, s1.choice2, s1.wins, subs[1].data, subs[1].playerChoice);
            var rest := Run(s2.choice1, s2.choice2, s2.wins, subs[2..]);
            var r := Run(choice1, choice2, wins, subs);
            && r.choice1 == rest.choice1 && r.choice2 == rest.choice2 && r.wins == rest.wins
            && r.emitted == (s1.emitted + s2.emitted) + rest.emitted
            && (s1.status == Done && s2.status == Done ==> r.status == rest.status)
  {
    var s1 := ChoiceStep(choice1, choice2, wins, subs[0].data, subs[0].playerChoice);
    var r1 := Run(s1.choice1, s1.choice2, s1.wins, subs[1..]);
    assert Run(choice1, choice2, wins, subs).emitted == s1.emitted + r1.emitted;
    assert subs[1..][0] == subs[1] && subs[1..][1..] == subs[2..];
    var s2 := ChoiceStep(s1.choice1, s1.choice2, s1.wins, subs[1].data, subs[1].playerChoice);
    var rest := Run(s2.choice1, s2.choice2, s2.wins, subs[2..]);
    assert r1.emitted == s2.emitted + rest.emitted;
    assert s1.emitted + (s2.emitted + rest.emitted) == (s1.emitted + s2.emitted) + rest.emitted;
  }

  /** Running the two moves of a round, then the rest. */
  lemma RunMovesCons(choice1: string, choice2: string, wins: map<string, nat>, rounds: seq<Round>)
    requires rounds != []
    ensures var ms := Moves([rounds[0]]);
            var s1 := ChoiceStep(choice1, choice2, wins, ms[0].data, ms[0].playerChoice);
            var s2 := ChoiceStep(s1.choice1, s1.choice2, s1.wins, ms[1].data, ms[1].playerChoice);
            var rest := Run(s2.choice1, s2.choice2, s2.wins, Moves(rounds[1..]));
            var r := Run(choice1, choice2, wins, Moves(rounds));
            && r.choice1 == rest.choice1 && r.choice2 == rest.choice2 && r.wins == rest.wins
            && r.emitted == (s1.emitted + s2.emitted) + rest.emitted
            && (s1.status == Done && s2.status == Done ==> r.status == rest.status)
  {
    var ms := Moves(rounds);
    var pair := Moves([rounds[0]]);
    assert Moves([rounds[0]][1..]) == [] by { assert [rounds[0]][1..] == []; }
    assert ms[0] == pair[0] && ms[1] == pair[1] && ms[2..] == Moves(rounds[1..]);
    RunTwo(choice1, choice2, wins, ms);
  }

  lemma WinsOfCons(rounds: seq<Round>, u: string)
    requires rounds != []
    ensures WinsOf(rounds, u) == WinsOf([rounds[0]], u) + WinsOf(rounds[1..], u)
  {
    assert [rounds[0]][1..] == [];
  }

  /**
   * A whole match from empty slots: every round resolves exactly once, the
   * slots end empty, each player's wins rise by exactly the rounds that player
   * won, and each round emits one wait and one result.
   */
  lemma {:induction false} PlayMatch(wins: map<string, nat>, rounds: seq<Round>)
    requires forall i :: 0 <= i < |rounds| ==> ValidRound(rounds[i], wins.Keys)
    ensures var r := Run("", "", wins, Moves(rounds));
            && r.status == Done
            && r.choice1 == "" && r.choice2 == ""
            && r.wins.Keys == wins.Keys
            && (forall u :: u in wins ==> r.wins[u] == wins[u] + WinsOf(rounds, u))
            && |r.emitted| == 2 * |rounds|
            && ResultCount(r.emitted) == |rounds|
  {
    if rounds != [] {
      var pair := Moves([rounds[0]]);
      PlayRound(wins, rounds[0]);
      var s1 := ChoiceStep("", "", wins, pair[0].data, pair[0].playerChoice);
      var s2 := ChoiceStep(s1.choice1, s1.choice2, s1.wins, pair[1].data, pair[1].playerChoice);
      PlayMatch(s2.wins, rounds[1..]);
      var rest := Run(s2.choice1, s2.choice2, s2.wins, Moves(rounds[1..]));
      RunMovesCons("", "", wins, rounds);
      ResultCountAppend(s1.emitted + s2.emitted, rest.emitted);
      forall u | u in wins
        ensures Run("", "", wins, Moves(rounds)).wins[u] == wins[u] + WinsOf(rounds, u)
      {
        WinsOfCons(rounds, u);
      }
    }
  }

  // ---------------------------------------------------------------- the module state

  /** The module-level `choice` dict of src/player.py, the users' wins and the emitted events. */
  class ChoiceTable {
    var choice1: string
    var choice2: string
    var wins: map<string, nat>
    var events: seq<Event>

    constructor (store: map<string, nat>)
      ensures choice1 == "" && choice2 == "" && wins == store && events == []
    {
      choice1, choice2 := "", "";
      wins := store;
      events := [];
    }

    /** `_update_winner`: `ok` is false when the credited user is missing and the lookup raises. */
    method UpdateWinner(result: string, player1: string, player2: string) returns (ok: bool)
      modifies this`wins
      ensures CreditResult(old(wins), result, player1, player2) == if ok then Ok(wins) else Err(
                if result == Player1Win then player1 else player2)
      ensures !ok ==> wins == old(wins)
    {
      ok := true;
      if result == Player1Win {
        ok := player1 in wins;
        if ok {
          var userWins := wins[player1];
          wins := wins[player1 := userWins + 1];
        }
      } else if result == Player2Win {
        ok := player2 in wins;
        if ok {
          var userWins := wins[player2];
          wins := wins[player2 := userWins + 1];
        }
      }
    }

    /** `handle_player_choice`. */
    method HandlePlayerChoice(d: ChoiceData, playerChoice: string) returns (status: Status)
      modifies this
      ensures var r := ChoiceStep(old(choice1), old(choice2), old(wins), d, playerChoice);
              && choice1 == r.choice1 && choice2 == r.choice2 && wins == r.wins
              && events == old(events) + r.emitted && status == r.status
    {
      if playerChoice == "player1" {
        choice1 := d.choice;
      } else {
        choice2 := d.choice;
      }
      if choice1 != "" && choice2 != "" {
        var result := GetWinner(choice1, choice2);
        if result.Err? {
          return Raised(UnknownChoice(result.error));
        }
        var ok := UpdateWinner(result.value, d.player1, d.player2);
        if !ok {
          var name := if result.value == Player1Win then d.player1 else d.player2;
          return Raised(UnknownUser(name));
        }
        events := events + [ResultEvent(d.roomId, result.value)];
        choice1 := "";
        choice2 := "";
        status := Done;
      } else {
        var person := DataGet(d, playerChoice);
        if person.None? {
          return Raised(MissingKey(playerChoice));
        }
        events := events + [Wait(d.roomId, person.value)];
        status := Done;
      }
    }
  }
}
