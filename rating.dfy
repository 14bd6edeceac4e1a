/**
 * The rating engine of Rating/Rating.py: match results are replayed in
 * order; each match moves player1 to whatever the Elo rule returns and
 * moves player2 by exactly the opposite amount, and both new ratings are
 * appended to the players' histories.
 *
 * The Elo rule itself (floating point, `round`) is a parameter: every
 * property proved here holds whatever integer it returns.
 */
module Rating {
  import opened OrderedDict

  type Player = string

  /** `initial_rating` */
  const INITIAL_RATING: int := 1400

  /** `new_elo_rating(player_rating, opponent_rating, result)` */
  type EloRule = (int, int, real) -> int

  /** One row of a results file: player1, player2, and player1's score. */
  datatype Match = Match(player1: Player, player2: Player, result: real)

  /** The `ratings` dict: insertion-ordered, one entry per player. */
  type Ratings = Dict<Player, int>

  /** `per_player_history`: every rating a player has held, oldest first. */
  type Histories = map<Player, seq<int>>

  /** What the replay has built so far. */
  datatype Ledger = Ledger(ratings: Ratings, history: Histories)

  // ---------------------------------------------------------------------
  // Specification of one step and of the whole replay
  // ---------------------------------------------------------------------

  /** `ensure_player_initial_rating`: lookup-or-insert with `[initial_rating]`. */
  function Seed(h: Histories, p: Player): (r: Histories)
    ensures r.Keys == h.Keys + {p}
    ensures p in h ==> r == h
    ensures forall q :: q in h ==> r[q] == h[q]
    ensures p !in h ==> r[p] == [INITIAL_RATING]
  {
    if p in h then h else h[p := [INITIAL_RATING]]
  }

  /** A player's rating before a match: `ratings.get(player, initial_rating)`. */
  function Current(ratings: Ratings, p: Player): int {
    Get(ratings, p, INITIAL_RATING)
  }

  /** Player1's rating after the match: what the Elo rule returns. */
  function NewRating1(ratings: Ratings, m: Match, elo: EloRule): int {
    elo(Current(ratings, m.player1), Current(ratings, m.player2), m.result)
  }

  /** Player2's rating after the match: moved by the opposite of player1's change. */
  function NewRating2(ratings: Ratings, m: Match, elo: EloRule): int {
    Current(ratings, m.player2) - (NewRating1(ratings, m, elo) - Current(ratings, m.player1))
  }

  /** The `ratings` dict after one match. */
  function StepRatings(ratings: Ratings, m: Match, elo: EloRule): Ratings {
    Set(Set(ratings, m.player1, NewRating1(ratings, m, elo)), m.player2, NewRating2(ratings, m, elo))
  }

  /** `per_player_history` after one match: seed both players, then append both new ratings. */
  function StepHistories(h: Histories, ratings: Ratings, m: Match, elo: EloRule): Histories {
    var seeded := Seed(Seed(h, m.player1), m.player2);
    var h1 := seeded[m.player1 := seeded[m.player1] + [NewRating1(ratings, m, elo)]];
    h1[m.player2 := h1[m.player2] + [NewRating2(ratings, m, elo)]]
  }

  /** The body of the `for` loop of `update_ratings`, for one match. */
  function Step(s: Ledger, m: Match, elo: EloRule): Ledger {
    Ledger(StepRatings(s.ratings, m, elo), StepHistories(s.history, s.ratings, m, elo))
  }

  /** The state after replaying `ms` in order, starting from an empty `ratings` dict. */
  function Run(ms: seq<Match>, h0: Histories, elo: EloRule): Ledger
    decreases |ms|
  {
    if ms == [] then Ledger([], h0)
    else Step(Run(ms[..|ms| - 1], h0, elo), ms[|ms| - 1], elo)
  }

  /** The players named in `ms`. */
  function Named(ms: seq<Match>): set<Player>
    decreases |ms|
  {
    if ms == [] then {}
    else Named(ms[..|ms| - 1]) + {ms[|ms| - 1].player1, ms[|ms| - 1].player2}
  }

  /** How many match sides `p` occupies in `ms` (a self-play match counts twice). */
  function Sides(ms: seq<Match>, p: Player): nat
    decreases |ms|
  {
    if ms == [] then 0
    else
      var m := ms[|ms| - 1];
      Sides(ms[..|ms| - 1], p) + (if m.player1 == p then 1 else 0) + (if m.player2 == p then 1 else 0)
  }

  predicate NoSelfPlay(ms: seq<Match>) {
    forall i :: 0 <= i < |ms| ==> ms[i].player1 != ms[i].player2
  }

  /** The sum of the values of a ratings dict. */
  function Total(d: Ratings): int
    decreases |d|
  {
    if d == [] then 0 else d[0].1 + Total(d[1..])
  }

  /** How far the total is from `initial_rating` per player. */
  function Surplus(d: Ratings): int {
    Total(d) - INITIAL_RATING * |d|
  }

  // ---------------------------------------------------------------------
  // The imperative code
  // ---------------------------------------------------------------------

  /** The caller-owned `per_player_history` dict, which `update_ratings` fills in place. */
  class PlayerHistories {
    var table: Histories

    constructor ()
      ensures table == map[]
    {
      table := map[];
    }

    /** `ensure_player_initial_rating(player, per_player_history)` */
    method EnsurePlayerInitialRating(player: Player)
      modifies this
      ensures table == Seed(old(table), player)
    {
      if player !in table {
        table := table[player := [INITIAL_RATING]];
      }
    }

    /** `per_player_history[player].append(rating)` */
    method Append(player: Player, rating: int)
      requires player in table
      modifies this
      ensures table == old(table)[player := old(table)[player] + [rating]]
    {
      table := table[player := table[player] + [rating]];
    }
  }

  /** The body of the `for` loop of `update_ratings`, for one match. */
  method ApplyMatch(m: Match, ratings: Ratings, perPlayerHistory: PlayerHistories, elo: EloRule)
    returns (ratings': Ratings)
    modifies perPlayerHistory
    ensures Ledger(ratings', perPlayerHistory.table) == Step(Ledger(ratings, old(perPlayerHistory.table)), m, elo)
  {
    perPlayerHistory.EnsurePlayerInitialRating(m.player1);
    perPlayerHistory.EnsurePlayerInitialRating(m.player2);

    var player1Rating := Get(ratings, m.player1, INITIAL_RATING);
    var player2Rating := Get(ratings, m.player2, INITIAL_RATING);

    var new1 := elo(player1Rating, player2Rating, m.result);
    ratings' := Set(ratings, m.player1, new1);
    perPlayerHistory.Append(m.player1, new1);

    // the increase of player1 is the decrease of player2
    var new2 := player2Rating - (new1 - player1Rating);
    ratings' := Set(ratings', m.player2, new2);
    perPlayerHistory.Append(m.player2, new2);
  }

  /** `update_ratings(match_results, per_player_history)` */
  method UpdateRatings(matchResults: seq<Match>, perPlayerHistory: PlayerHistories, elo: EloRule)
    returns (ratings: Ratings)
    modifies perPlayerHistory
    ensures ratings == Run(matchResults, old(perPlayerHistory.table), elo).ratings
    ensures perPlayerHistory.table == Run(matchResults, old(perPlayerHistory.table), elo).history
  {
    ghost var h0 := perPlayerHistory.table;
    ratings := [];
    for i := 0 to |matchResults|
      invariant Ledger(ratings, perPlayerHistory.table) == Run(matchResults[..i], h0, elo)
    {
      ratings := ApplyMatch(matchResults[i], ratings, perPlayerHistory, elo);
      assert matchResults[..i + 1][..i] == matchResults[..i];
    }
    assert matchResults[..|matchResults|] == matchResults;
  }
}
