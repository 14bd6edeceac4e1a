/**
 * What `update_ratings` guarantees, for any Elo rule: zero-sum matches,
 * conservation of the rating total, append-only histories seeded with the
 * initial rating, and a ratings dict that agrees with the histories.
 */
module RatingProperties {
  import opened OrderedDict
  import opened Rating

  function Last(s: seq<int>): int
    requires s != []
  {
    s[|s| - 1]
  }

  // ---------------------------------------------------------------------
  // One match
  // ---------------------------------------------------------------------

  /**
   * After a match, player2 holds the complement rating, player1 holds what
   * the Elo rule returned (unless player2 is player1, whose second write
   * wins), and every other player keeps their rating. Player1's gain is
   * exactly player2's loss.
   */
  lemma StepReads(r: Ratings, m: Match, elo: EloRule, q: Player)
    ensures Current(StepRatings(r, m, elo), m.player2) == NewRating2(r, m, elo)
    ensures m.player1 != m.player2 ==> Current(StepRatings(r, m, elo), m.player1) == NewRating1(r, m, elo)
    ensures q != m.player1 && q != m.player2 ==> Current(StepRatings(r, m, elo), q) == Current(r, q)
    ensures m.player1 != m.player2 ==>
              Current(StepRatings(r, m, elo), m.player1) - Current(r, m.player1)
              == Current(r, m.player2) - Current(StepRatings(r, m, elo), m.player2)
  {
    var ratings1 := Set(r, m.player1, NewRating1(r, m, elo));
    GetSet(r, m.player1, NewRating1(r, m, elo), q, INITIAL_RATING);
    GetSet(r, m.player1, NewRating1(r, m, elo), m.player1, INITIAL_RATING);
    GetSet(ratings1, m.player2, NewRating2(r, m, elo), q, INITIAL_RATING);
    GetSet(ratings1, m.player2, NewRating2(r, m, elo), m.player1, INITIAL_RATING);
    GetSet(ratings1, m.player2, NewRating2(r, m, elo), m.player2, INITIAL_RATING);
  }

  /**
   * Self-play (player1 == player2): the write for player2 overwrites the one
   * for player1, so the player ends at `2 * before - new`, not at what the
   * Elo rule gave.
   */
  lemma SelfPlayOverwrites(r: Ratings, m: Match, elo: EloRule)
    requires m.player1 == m.player2
    ensures var before := Current(r, m.player1);
            Current(StepRatings(r, m, elo), m.player1) == 2 * before - elo(before, before, m.result)
  {
    StepReads(r, m, elo, m.player1);
  }

  /** Assigning a key moves the surplus by the difference between the new and the current value. */
  lemma {:induction false} SurplusSet(d: Ratings, k: Player, v: int)
    ensures Surplus(Set(d, k, v)) == Surplus(d) + v - Current(d, k)
  {
    if d != [] && d[0].0 != k {
      SurplusSet(d[1..], k, v);
      assert Set(d, k, v)[1..] == Set(d[1..], k, v);
    } else if d != [] {
      assert Set(d, k, v) == [(k, v)] + d[1..];
      assert Set(d, k, v)[1..] == d[1..];
      assert Total(Set(d, k, v)) == v + Total(d[1..]);
    } else {
      assert Set(d, k, v)[1..] == [];
    }
  }

  /**
   * A match leaves the surplus over `initial_rating` per player unchanged,
   * except in self-play, where it moves by the player's `before - new`.
   */
  lemma StepSurplus(r: Ratings, m: Match, elo: EloRule)
    ensures Surplus(StepRatings(r, m, elo))
         == Surplus(r) + (if m.player1 == m.player2 then Current(r, m.player1) - NewRating1(r, m, elo) else 0)
  {
    var ratings1 := Set(r, m.player1, NewRating1(r, m, elo));
    SurplusSet(r, m.player1, NewRating1(r, m, elo));
    SurplusSet(ratings1, m.player2, NewRating2(r, m, elo));
    GetSet(r, m.player1, NewRating1(r, m, elo), m.player2, INITIAL_RATING);
  }

  /** A concrete self-play match that changes the rating total. */
  lemma SelfPlayBreaksConservation()
    ensures var elo: EloRule := (own, opponent, result) => own + 20;
            Surplus(StepRatings([], Match("A", "A", 1.0), elo)) == -20
  {
    var elo: EloRule := (own, opponent, result) => own + 20;
    StepSurplus([], Match("A", "A", 1.0), elo);
  }

  /** A match adds its two players to the keys of `ratings`, and never duplicates a key. */
  lemma StepRatingKeys(r: Ratings, m: Match, elo: EloRule)
    ensures Keys(StepRatings(r, m, elo)) == Keys(r) + {m.player1, m.player2}
    ensures DistinctKeys(r) ==> DistinctKeys(StepRatings(r, m, elo))
  {
    var ratings1 := Set(r, m.player1, NewRating1(r, m, elo));
    SetShape(r, m.player1, NewRating1(r, m, elo));
    SetShape(ratings1, m.player2, NewRating2(r, m, elo));
    if DistinctKeys(r) {
      SetKeepsKeysDistinct(r, m.player1, NewRating1(r, m, elo));
      SetKeepsKeysDistinct(ratings1, m.player2, NewRating2(r, m, elo));
    }
  }

  /**
   * Each match seeds unseen players with `[initial_rating]`, appends exactly
   * one entry per side a player occupies, and changes no earlier entry.
   */
  lemma StepHistory(h: Histories, r: Ratings, m: Match, elo: EloRule)
    ensures var t := StepHistories(h, r, m, elo);
            && t.Keys == h.Keys + {m.player1, m.player2}
            && (forall q :: q in h && q != m.player1 && q != m.player2 ==> t[q] == h[q])
            && (forall q :: q in h ==> h[q] <= t[q])
            && (m.player1 != m.player2 ==>
                  && t[m.player1] == Seed(h, m.player1)[m.player1] + [NewRating1(r, m, elo)]
                  && t[m.player2] == Seed(h, m.player2)[m.player2] + [NewRating2(r, m, elo)])
            && (m.player1 == m.player2 ==>
                  t[m.player1] == Seed(h, m.player1)[m.player1] + [NewRating1(r, m, elo), NewRating2(r, m, elo)])
  {
  }

  // ---------------------------------------------------------------------
  // The whole replay
  // ---------------------------------------------------------------------

  /**
   * The keys of the returned `ratings` are exactly the players named in the
   * matches, without duplicates; the histories gain exactly those players.
   */
  lemma {:induction false} RunKeys(ms: seq<Match>, h0: Histories, elo: EloRule)
    ensures Keys(Run(ms, h0, elo).ratings) == Named(ms)
    ensures DistinctKeys(Run(ms, h0, elo).ratings)
    ensures Run(ms, h0, elo).history.Keys == h0.Keys + Named(ms)
  {
    if ms != [] {
      var prev := Run(ms[..|ms| - 1], h0, elo);
      var m := ms[|ms| - 1];
      RunKeys(ms[..|ms| - 1], h0, elo);
      StepHistory(prev.history, prev.ratings, m, elo);
      StepRatingKeys(prev.ratings, m, elo);
    }
  }

  lemma {:induction false} SurplusZero(ms: seq<Match>, h0: Histories, elo: EloRule)
    requires NoSelfPlay(ms)
    ensures Surplus(Run(ms, h0, elo).ratings) == 0
  {
    if ms != [] {
      assert NoSelfPlay(ms[..|ms| - 1]);
      SurplusZero(ms[..|ms| - 1], h0, elo);
      StepSurplus(Run(ms[..|ms| - 1], h0, elo).ratings, ms[|ms| - 1], elo);
    }
  }

  /**
   * Conservation: without self-play, the rating total is `initial_rating`
   * times the number of players seen so far.
   */
  lemma Conservation(ms: seq<Match>, h0: Histories, elo: EloRule)
    requires NoSelfPlay(ms)
    ensures Total(Run(ms, h0, elo).ratings) == INITIAL_RATING * |Named(ms)|
  {
    SurplusZero(ms, h0, elo);
    RunKeys(ms, h0, elo);
    KeysCardinality(Run(ms, h0, elo).ratings);
  }

  lemma {:induction false} UnnamedHasNoSides(ms: seq<Match>, p: Player)
    requires p !in Named(ms)
    ensures Sides(ms, p) == 0
  {
    if ms != [] {
      UnnamedHasNoSides(ms[..|ms| - 1], p);
    }
  }

  /**
   * A player's history starts with what the caller's dict held for them (or
   * with `[initial_rating]` if nothing), and grows by one entry per match side
   * the player occupied.
   */
  lemma {:induction false} HistoryGrowth(ms: seq<Match>, h0: Histories, elo: EloRule, p: Player)
    requires p in h0 || p in Named(ms)
    ensures p in Run(ms, h0, elo).history
    ensures Seed(h0, p)[p] <= Run(ms, h0, elo).history[p]
    ensures |Run(ms, h0, elo).history[p]| == |Seed(h0, p)[p]| + Sides(ms, p)
  {
    if ms != [] {
      var front := ms[..|ms| - 1];
      var prev := Run(front, h0, elo);
      var m := ms[|ms| - 1];
      var t := Run(ms, h0, elo).history;
      assert t == StepHistories(prev.history, prev.ratings, m, elo);
      StepHistory(prev.history, prev.ratings, m, elo);
      RunKeys(front, h0, elo);
      var before := Seed(prev.history, p)[p];
      if p in h0 || p in Named(front) {
        HistoryGrowth(front, h0, elo, p);
        assert before == prev.history[p];
      } else {
        UnnamedHasNoSides(front, p);
        assert before == [INITIAL_RATING] == Seed(h0, p)[p];
      }
      assert |before| == |Seed(h0, p)[p]| + Sides(front, p);
      assert Sides(ms, p) == Sides(front, p) + (if m.player1 == p then 1 else 0) + (if m.player2 == p then 1 else 0);
      if p != m.player1 && p != m.player2 {
        assert t[p] == before;
      } else if m.player1 != m.player2 {
        assert t[p] == before + [if p == m.player1 then NewRating1(prev.ratings, m, elo) else NewRating2(prev.ratings, m, elo)];
      } else {
        assert t[p] == before + [NewRating1(prev.ratings, m, elo), NewRating2(prev.ratings, m, elo)];
      }
    }
  }

  /** One more match keeps every existing history as a prefix. */
  lemma OneMoreMatch(ms: seq<Match>, h0: Histories, elo: EloRule, p: Player)
    requires ms != []
    requires p in Run(ms[..|ms| - 1], h0, elo).history
    ensures p in Run(ms, h0, elo).history
    ensures Run(ms[..|ms| - 1], h0, elo).history[p] <= Run(ms, h0, elo).history[p]
  {
    var prev := Run(ms[..|ms| - 1], h0, elo);
    StepHistory(prev.history, prev.ratings, ms[|ms| - 1], elo);
  }

  /**
   * No match ever changes an entry already in a history: the histories after
   * any prefix of the matches are prefixes of the final histories.
   */
  lemma {:induction false} HistoryAppendOnly(ms: seq<Match>, h0: Histories, elo: EloRule, i: nat, p: Player)
    requires i <= |ms|
    requires p in Run(ms[..i], h0, elo).history
    ensures p in Run(ms, h0, elo).history
    ensures Run(ms[..i], h0, elo).history[p] <= Run(ms, h0, elo).history[p]
    decreases |ms|
  {
    if i == |ms| {
      assert ms[..i] == ms;
    } else {
      var front := ms[..|ms| - 1];
      assert front[..i] == ms[..i];
      HistoryAppendOnly(front, h0, elo, i, p);
      OneMoreMatch(ms, h0, elo, p);
    }
  }

  /** The last entry of each rated player's history is that player's value in `ratings`. */
  lemma {:induction false} LastEntryIsRating(ms: seq<Match>, h0: Histories, elo: EloRule, p: Player)
    requires p in Keys(Run(ms, h0, elo).ratings)
    ensures p in Run(ms, h0, elo).history
    ensures Run(ms, h0, elo).history[p] != []
    ensures Last(Run(ms, h0, elo).history[p]) == Current(Run(ms, h0, elo).ratings, p)
  {
    if ms != [] {
      var prev := Run(ms[..|ms| - 1], h0, elo);
      var m := ms[|ms| - 1];
      StepHistory(prev.history, prev.ratings, m, elo);
      StepRatingKeys(prev.ratings, m, elo);
      StepReads(prev.ratings, m, elo, p);
      if p != m.player1 && p != m.player2 {
        LastEntryIsRating(ms[..|ms| - 1], h0, elo, p);
      }
    }
  }

  /**
   * The rating a player brings to the next match: the last entry of their
   * history if they have played in this replay, `initial_rating` otherwise
   * (a history the caller's dict already held is not consulted).
   */
  lemma PreMatchRating(ms: seq<Match>, h0: Histories, elo: EloRule, p: Player)
    ensures p !in Named(ms) ==> Current(Run(ms, h0, elo).ratings, p) == INITIAL_RATING
    ensures p in Named(ms) ==>
              && p in Run(ms, h0, elo).history
              && Run(ms, h0, elo).history[p] != []
              && Current(Run(ms, h0, elo).ratings, p) == Last(Run(ms, h0, elo).history[p])
  {
    RunKeys(ms, h0, elo);
    GetFound(Run(ms, h0, elo).ratings, p, INITIAL_RATING);
    if p in Named(ms) {
      LastEntryIsRating(ms, h0, elo, p);
    }
  }
}
