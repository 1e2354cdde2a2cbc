/**
 * The user store as the game engine sees it: a map from username to its win
 * counter, and the username syntax check shared by server.py and src/player.py.
 */
module Users {
  import opened Wrappers

  /** A username is valid exactly when it contains no '/'. */
  function IsValidUsername(username: string): (valid: bool)
    ensures valid <==> forall i :: 0 <= i < |username| ==> username[i] != '/'
  {
    '/' !in username
  }

  /** `after` is `before` with the wins of `name` raised by one and nothing else changed. */
  ghost predicate IncrementedOnce(before: map<string, nat>, after: map<string, nat>, name: string)
  {
    && name in before
    && after.Keys == before.Keys
    && after[name] == before[name] + 1
    && forall u :: u in before && u != name ==> after[u] == before[u]
  }

  /**
   * The read-modify-write on a user's `wins`. Looking up a user who is not in
   * the store yields Python's `None`, and subscripting it raises; that is the
   * error result, carrying the name that was looked up.
   */
  function IncrementWins(wins: map<string, nat>, name: string): (r: Result<map<string, nat>, string>)
    ensures r.Ok? <==> name in wins
    ensures r.Ok? ==> IncrementedOnce(wins, r.value, name)
    ensures r.Err? ==> r.error == name
  {
    if name in wins then Ok(wins[name := wins[name] + 1]) else Err(name)
  }
}
