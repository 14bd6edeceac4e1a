/**
 * The final standings of Rating/Rating.py: the `ratings` dict's items are
 * sorted by rating, highest first, with Python's stable `sorted(...,
 * reverse=True)`; `process_and_write_ratings` then drops the hidden players
 * and keeps the order.
 */
module Ranking {
  import opened Optional
  import opened OrderedDict
  import opened Rating
  import opened RatingProperties

  /** One item of `ratings.items()`: a player and a rating. */
  type Entry = (Player, int)

  predicate Descending(s: seq<Entry>) {
    forall i, j :: 0 <= i < j < |s| ==> s[i].1 >= s[j].1
  }

  /** The entries of `s` that carry rating `v`, in their order in `s`. */
  function WithRating(s: seq<Entry>, v: int): seq<Entry>
    decreases |s|
  {
    if s == [] then []
    else (if s[0].1 == v then [s[0]] else []) + WithRating(s[1..], v)
  }

  /** Places `x` in front of the first entry whose rating is not above its own. */
  function Insert(x: Entry, s: seq<Entry>): seq<Entry>
    decreases |s|
  {
    if s == [] || s[0].1 <= x.1 then [x] + s
    else [s[0]] + Insert(x, s[1..])
  }

  /** `sorted(items, key=lambda x: x[1], reverse=True)` */
  function SortByRatingDesc(s: seq<Entry>): seq<Entry>
    decreases |s|
  {
    if s == [] then [] else Insert(s[0], SortByRatingDesc(s[1..]))
  }

  lemma {:induction false} InsertPermutes(x: Entry, s: seq<Entry>)
    ensures multiset(Insert(x, s)) == multiset(s) + multiset{x}
  {
    if !(s == [] || s[0].1 <= x.1) {
      InsertPermutes(x, s[1..]);
      assert s == [s[0]] + s[1..];
    }
  }

  lemma {:induction false} InsertDescending(x: Entry, s: seq<Entry>)
    requires Descending(s)
    ensures Descending(Insert(x, s))
  {
    if !(s == [] || s[0].1 <= x.1) {
      var t := Insert(x, s[1..]);
      InsertDescending(x, s[1..]);
      InsertPermutes(x, s[1..]);
      forall j | 0 <= j < |t|
        ensures s[0].1 >= t[j].1
      {
        assert t[j] in multiset(t);
        if t[j] != x {
          assert t[j] in multiset(s[1..]);
          var k :| 0 <= k < |s[1..]| && s[1..][k] == t[j];
          assert s[k + 1] == t[j];
        }
      }
    }
  }

  lemma {:induction false} InsertWithRating(x: Entry, s: seq<Entry>, v: int)
    ensures WithRating(Insert(x, s), v) == (if x.1 == v then [x] else []) + WithRating(s, v)
  {
    if s == [] || s[0].1 <= x.1 {
      assert ([x] + s)[1..] == s;
    } else {
      var t := Insert(x, s[1..]);
      InsertWithRating(x, s[1..], v);
      assert ([s[0]] + t)[1..] == t;
      assert WithRating([s[0]] + t, v) == (if s[0].1 == v then [s[0]] else []) + WithRating(t, v);
      assert WithRating(s, v) == (if s[0].1 == v then [s[0]] else []) + WithRating(s[1..], v);
      if x.1 == v {
        assert s[0].1 != v;
      } else {
        assert WithRating(t, v) == WithRating(s[1..], v);
      }
    }
  }

  /**
   * The sort returns the same entries, highest rating first, and entries
   * with equal ratings stay in their order in `ratings` (the sort is stable).
   */
  lemma {:induction false} SortFacts(s: seq<Entry>)
    ensures Descending(SortByRatingDesc(s))
    ensures multiset(SortByRatingDesc(s)) == multiset(s)
    ensures forall v :: WithRating(SortByRatingDesc(s), v) == WithRating(s, v)
  {
    if s != [] {
      var rest := SortByRatingDesc(s[1..]);
      SortFacts(s[1..]);
      InsertDescending(s[0], rest);
      InsertPermutes(s[0], rest);
      assert s == [s[0]] + s[1..];
      forall v
        ensures WithRating(SortByRatingDesc(s), v) == WithRating(s, v)
      {
        InsertWithRating(s[0], rest, v);
      }
    }
  }

  lemma {:induction false} WithRatingMember(s: seq<Entry>, v: int, e: Entry)
    requires e in WithRating(s, v)
    ensures e in s && e.1 == v
  {
    if s[0].1 == v && e == s[0] {
    } else {
      WithRatingMember(s[1..], v, e);
    }
  }

  lemma {:induction false} WithRatingHas(s: seq<Entry>, i: nat)
    requires i < |s|
    ensures s[i] in WithRating(s, s[i].1)
  {
    if i > 0 {
      WithRatingHas(s[1..], i - 1);
    }
  }

  /** Only the empty sequence has no entry of any rating. */
  lemma EmptyGroups(s: seq<Entry>)
    requires forall v :: WithRating(s, v) == []
    ensures s == []
  {
    if s != [] {
      WithRatingHas(s, 0);
    }
  }

  /**
   * A descending order is determined by its groups of equal ratings: two
   * descending sequences whose entries of each rating agree, in order, are
   * equal.
   */
  lemma {:induction false} GroupsDetermineOrder(a: seq<Entry>, b: seq<Entry>)
    requires Descending(a) && Descending(b)
    requires forall v :: WithRating(a, v) == WithRating(b, v)
    ensures a == b
    decreases |a| + |b|
  {
    if a == [] {
      EmptyGroups(b);
    } else if b == [] {
      EmptyGroups(a);
    } else {
      WithRatingHas(a, 0);
      WithRatingHas(b, 0);
      WithRatingMember(b, a[0].1, a[0]);
      WithRatingMember(a, b[0].1, b[0]);
      var v := a[0].1;
      assert b[0].1 == v;
      assert WithRating(a, v) == [a[0]] + WithRating(a[1..], v);
      assert WithRating(b, v) == [b[0]] + WithRating(b[1..], v);
      assert a[0] == WithRating(a, v)[0] == WithRating(b, v)[0] == b[0];
      forall u
        ensures WithRating(a[1..], u) == WithRating(b[1..], u)
      {
        var head := if v == u then [a[0]] else [];
        assert WithRating(a, u) == head + WithRating(a[1..], u);
        assert WithRating(b, u) == head + WithRating(b[1..], u);
        assert WithRating(a[1..], u) == WithRating(a, u)[|head|..];
        assert WithRating(b[1..], u) == WithRating(b, u)[|head|..];
      }
      GroupsDetermineOrder(a[1..], b[1..]);
      assert a == [a[0]] + a[1..] && b == [b[0]] + b[1..];
    }
  }

  /**
   * The sort is the only descending arrangement of `s` that keeps the order
   * of equal ratings.
   */
  lemma SortIsUnique(s: seq<Entry>, t: seq<Entry>)
    requires Descending(t)
    requires forall v :: WithRating(t, v) == WithRating(s, v)
    ensures t == SortByRatingDesc(s)
  {
    SortFacts(s);
    GroupsDetermineOrder(t, SortByRatingDesc(s));
  }

  // ---------------------------------------------------------------------
  // process_and_write_ratings
  // ---------------------------------------------------------------------

  /** `players_to_hide_output` */
  const PLAYERS_TO_HIDE_OUTPUT: set<Player> := {
    "Александар Јакшић", "Стеван Радаковић", "Предраг Тошић", "Емир Баручија",
    "Слободан Жарић", "Сергеј Хринко", "Звонко Николић", "Ануш",
    "Милош Грујић (*)", "Перо Остојић", "Мирко Спасојевић", "Марко Лакић",
    "Tim Hendon", "Саша Радојевић", "Аца Спасојевић", "Слободан Бојанић",
    "Саша Дожић", "Алекса Миловановић", "Перица Милошевић", "Далибор Марчета",
    "Nathan Main", "Eric Main", "Sagnik Sinha", "Ивица Колев",
    "Eli Main", "Кита Колева", "Cody Rose"
  }

  /** `players_to_hide_output is None or player not in players_to_hide_output` */
  predicate Shown(p: Player, hidden: Option<set<Player>>) {
    hidden.None? || p !in hidden.value
  }

  /** The entries of `s` that are shown, in order. */
  function Visible(s: seq<Entry>, hidden: Option<set<Player>>): seq<Entry>
    decreases |s|
  {
    if s == [] then []
    else Visible(s[..|s| - 1], hidden) + (if Shown(s[|s| - 1].0, hidden) then [s[|s| - 1]] else [])
  }

  /** The `result` list of `process_and_write_ratings`. */
  method ProcessRatings(sortedRatings: seq<Entry>, hidden: Option<set<Player>>) returns (result: seq<Entry>)
    ensures result == Visible(sortedRatings, hidden)
  {
    result := [];
    for i := 0 to |sortedRatings|
      invariant result == Visible(sortedRatings[..i], hidden)
    {
      var (player, rating) := sortedRatings[i];
      if Shown(player, hidden) {
        result := result + [(player, rating)];
      }
      assert sortedRatings[..i + 1][..i] == sortedRatings[..i];
    }
    assert sortedRatings[..|sortedRatings|] == sortedRatings;
  }

  /** An entry is written exactly when it is in the input and its player is not hidden. */
  lemma {:induction false} VisibleMembers(s: seq<Entry>, hidden: Option<set<Player>>, e: Entry)
    ensures e in Visible(s, hidden) <==> e in s && Shown(e.0, hidden)
  {
    if s != [] {
      VisibleMembers(s[..|s| - 1], hidden, e);
      assert s == s[..|s| - 1] + [s[|s| - 1]];
    }
  }

  /** Without a hidden set every entry is written, in the same order. */
  lemma {:induction false} VisibleNone(s: seq<Entry>)
    ensures Visible(s, None) == s
  {
    if s != [] {
      VisibleNone(s[..|s| - 1]);
      assert s == s[..|s| - 1] + [s[|s| - 1]];
    }
  }

  /** Filtering keeps the order of what remains: a descending input stays descending. */
  lemma {:induction false} VisibleDescending(s: seq<Entry>, hidden: Option<set<Player>>)
    requires Descending(s)
    ensures Descending(Visible(s, hidden))
  {
    if s != [] {
      var front := s[..|s| - 1];
      assert Descending(front);
      VisibleDescending(front, hidden);
      forall e | e in Visible(front, hidden)
        ensures e.1 >= s[|s| - 1].1
      {
        VisibleMembers(front, hidden, e);
      }
    }
  }

  // ---------------------------------------------------------------------
  // The written standings
  // ---------------------------------------------------------------------

  /** An item of the `ratings` dict pairs a player who has played with that player's rating. */
  lemma RunItems(ms: seq<Match>, h0: Histories, elo: EloRule, e: Entry)
    ensures e in Run(ms, h0, elo).ratings <==> e.0 in Named(ms) && e.1 == Current(Run(ms, h0, elo).ratings, e.0)
  {
    var ratings := Run(ms, h0, elo).ratings;
    RunKeys(ms, h0, elo);
    GetFound(ratings, e.0, INITIAL_RATING);
    if e in ratings {
      var i :| 0 <= i < |ratings| && ratings[i] == e;
      KeyAt(ratings, i);
      EntryIsGet(ratings, e.0, e.1, INITIAL_RATING);
    }
  }

  /**
   * The rows written for a replay: highest rating first, and a row
   * `(player, rating)` appears exactly when the player has played, is not
   * hidden, and `rating` is the player's final rating.
   */
  lemma Standings(ms: seq<Match>, h0: Histories, elo: EloRule, hidden: Option<set<Player>>, p: Player, r: int)
    ensures Descending(Visible(SortByRatingDesc(Run(ms, h0, elo).ratings), hidden))
    ensures (p, r) in Visible(SortByRatingDesc(Run(ms, h0, elo).ratings), hidden)
        <==> p in Named(ms) && Shown(p, hidden) && r == Current(Run(ms, h0, elo).ratings, p)
  {
    var ratings := Run(ms, h0, elo).ratings;
    SortFacts(ratings);
    VisibleDescending(SortByRatingDesc(ratings), hidden);
    VisibleMembers(SortByRatingDesc(ratings), hidden, (p, r));
    assert (p, r) in SortByRatingDesc(ratings) <==> (p, r) in multiset(ratings);
    RunItems(ms, h0, elo, (p, r));
  }

  /**
   * The two calls at the end of the script: `rating.csv` leaves out every
   * player of `players_to_hide_output`, and `all_ratings.csv` is the whole
   * sorted list.
   */
  lemma WrittenFiles(ms: seq<Match>, h0: Histories, elo: EloRule, p: Player, r: int)
    ensures p in PLAYERS_TO_HIDE_OUTPUT ==>
              (p, r) !in Visible(SortByRatingDesc(Run(ms, h0, elo).ratings), Some(PLAYERS_TO_HIDE_OUTPUT))
    ensures p !in PLAYERS_TO_HIDE_OUTPUT ==>
              ((p, r) in Visible(SortByRatingDesc(Run(ms, h0, elo).ratings), Some(PLAYERS_TO_HIDE_OUTPUT))
               <==> (p, r) in Visible(SortByRatingDesc(Run(ms, h0, elo).ratings), None))
    ensures Visible(SortByRatingDesc(Run(ms, h0, elo).ratings), None) == SortByRatingDesc(Run(ms, h0, elo).ratings)
  {
    var sorted := SortByRatingDesc(Run(ms, h0, elo).ratings);
    VisibleMembers(sorted, Some(PLAYERS_TO_HIDE_OUTPUT), (p, r));
    VisibleMembers(sorted, None, (p, r));
    VisibleNone(sorted);
  }
}
