/**
 * What filling the placeholder slots guarantees: only placeholders before
 * "Непар" are overwritten, each with a paid participant who was not already
 * listed and that participant's rating; every such participant is either
 * placed or reported as failed; a failure means no placeholder was left;
 * and as long as no participant's name looks like a placeholder, exactly
 * `min(participants, placeholders)` are placed.
 */
module TournamentProperties {
  import opened Optional
  import opened Strings
  import opened Cells
  import opened Tournament

  lemma InPrefix<T>(s: seq<T>, n: nat, x: T)
    requires n <= |s| && x in s[..n]
    ensures x in s
  {
    var i :| 0 <= i < n && s[..n][i] == x;
    assert s[i] == x;
  }

  /**
   * Every row that differs from the sheet as read was a placeholder before
   * "Непар", now holds a paid participant who was not already listed, and,
   * when the sheet has a seed column, that participant's rating as its seed.
   */
  predicate RowsFilled(names0: seq<Cell>, seeds0: seq<Cell>, r: Fill, paid: seq<Cell>, setup: Setup)
    requires |r.names| == |names0| && |r.seeds| == |seeds0| == |names0|
  {
    forall i :: 0 <= i < |names0| && (r.names[i] != names0[i] || r.seeds[i] != seeds0[i]) ==>
      && i < setup.end && IsPlaceholder(names0[i])
      && r.names[i] in paid && r.names[i] !in setup.existing
      && r.seeds[i] == (if setup.hasSeedColumn then Number(RatingFor(setup.lookup, r.names[i], setup.default)) else seeds0[i])
  }

  lemma {:induction false} FillRows(names0: seq<Cell>, seeds0: seq<Cell>, paid: seq<Cell>, setup: Setup)
    requires setup.end <= |names0| && |seeds0| == |names0|
    ensures RowsFilled(names0, seeds0, FillAll(names0, seeds0, paid, setup), paid, setup)
  {
    if paid != [] {
      var front := paid[..|paid| - 1];
      var p := paid[|paid| - 1];
      var prev := FillAll(names0, seeds0, front, setup);
      var r := FillAll(names0, seeds0, paid, setup);
      FillRows(names0, seeds0, front, setup);
      assert r == Place(prev, p, setup);
      var slot := FirstPlaceholder(prev.names, setup.end);
      forall i | 0 <= i < |names0| && (r.names[i] != names0[i] || r.seeds[i] != seeds0[i])
        ensures && i < setup.end && IsPlaceholder(names0[i])
                && r.names[i] in paid && r.names[i] !in setup.existing
                && r.seeds[i] == (if setup.hasSeedColumn then Number(RatingFor(setup.lookup, r.names[i], setup.default)) else seeds0[i])
      {
        if p in setup.existing || slot.None? || i != slot.value {
          assert r.names[i] == prev.names[i] && r.seeds[i] == prev.seeds[i];
          InPrefix(paid, |paid| - 1, r.names[i]);
        } else {
          assert r.names[i] == p;
        }
      }
    }
  }

  /** The participants the loop does not skip, counted. */
  lemma {:induction false} FillCounts(names0: seq<Cell>, seeds0: seq<Cell>, paid: seq<Cell>, setup: Setup)
    requires setup.end <= |names0| && |seeds0| == |names0|
    ensures var r := FillAll(names0, seeds0, paid, setup);
            && r.updated + |r.failed| == |Kept(paid, setup.existing)|
            && |r.updates| == r.updated * (if setup.hasSeedColumn then 2 else 1)
            && (forall c :: c in r.failed ==> c in paid && c !in setup.existing)
  {
    if paid != [] {
      var front := paid[..|paid| - 1];
      FillCounts(names0, seeds0, front, setup);
      forall c | c in FillAll(names0, seeds0, front, setup).failed
        ensures c in paid
      {
        InPrefix(paid, |paid| - 1, c);
      }
    }
  }

  /** A participant fails only when no placeholder is left, and after that none is placed. */
  lemma {:induction false} FailureMeansFull(names0: seq<Cell>, seeds0: seq<Cell>, paid: seq<Cell>, setup: Setup)
    requires setup.end <= |names0| && |seeds0| == |names0|
    ensures var r := FillAll(names0, seeds0, paid, setup);
            r.failed != [] ==> FirstPlaceholder(r.names, setup.end) == None
  {
    if paid != [] {
      FailureMeansFull(names0, seeds0, paid[..|paid| - 1], setup);
    }
  }

  lemma {:induction false} NoPlaceholderCount(names: seq<Cell>, end: nat)
    requires end <= |names|
    ensures PlaceholderCount(names, end) == 0 <==> FirstPlaceholder(names, end) == None
  {
    if end > 0 {
      NoPlaceholderCount(names, end - 1);
      var first := FirstPlaceholder(names, end);
      var before := FirstPlaceholder(names, end - 1);
      if before.Some? {
        assert first.Some?;
      } else if IsPlaceholder(names[end - 1]) {
        assert first.Some?;
      } else {
        assert first.None?;
      }
    }
  }

  lemma {:induction false} CountBeyond(names: seq<Cell>, end: nat, j: nat, c: Cell)
    requires end <= j < |names|
    ensures PlaceholderCount(names[j := c], end) == PlaceholderCount(names, end)
  {
    if end > 0 {
      CountBeyond(names, end - 1, j, c);
    }
  }

  /** Writing a non-placeholder over a placeholder leaves one placeholder fewer. */
  lemma {:induction false} CountAfterFill(names: seq<Cell>, end: nat, i: nat, c: Cell)
    requires i < end <= |names|
    requires IsPlaceholder(names[i]) && !IsPlaceholder(c)
    ensures PlaceholderCount(names[i := c], end) == PlaceholderCount(names, end) - 1
  {
    if i == end - 1 {
      CountBeyond(names, end - 1, i, c);
    } else {
      CountAfterFill(names, end - 1, i, c);
    }
  }

  function Min(a: int, b: int): int {
    if a < b then a else b
  }

  /**
   * As long as no participant's name itself starts with "Играч ", the loop
   * places `min(participants not already listed, placeholders)` of them,
   * and each placement uses up one placeholder.
   */
  lemma {:induction false} FillsMin(names0: seq<Cell>, seeds0: seq<Cell>, paid: seq<Cell>, setup: Setup)
    requires setup.end <= |names0| && |seeds0| == |names0|
    requires forall i :: 0 <= i < |paid| ==> !IsPlaceholder(paid[i])
    ensures var r := FillAll(names0, seeds0, paid, setup);
            && r.updated == Min(|Kept(paid, setup.existing)|, PlaceholderCount(names0, setup.end))
            && PlaceholderCount(r.names, setup.end) == PlaceholderCount(names0, setup.end) - r.updated
  {
    if paid != [] {
      var front := paid[..|paid| - 1];
      var p := paid[|paid| - 1];
      var prev := FillAll(names0, seeds0, front, setup);
      FillsMin(names0, seeds0, front, setup);
      NoPlaceholderCount(prev.names, setup.end);
      var slot := FirstPlaceholder(prev.names, setup.end);
      if p !in setup.existing && slot.Some? {
        CountAfterFill(prev.names, setup.end, slot.value, p);
      }
    }
  }

  /** Every listed-player cell before "Непар" counts as already present. */
  lemma {:induction false} ExistingHas(names: seq<Cell>, end: nat, i: nat)
    requires i < end <= |names|
    requires IsListedPlayer(names[i])
    ensures names[i] in Existing(names, end)
  {
    if i < end - 1 {
      ExistingHas(names, end - 1, i);
    }
  }

  /** Only listed-player cells before "Непар" count as already present. */
  lemma {:induction false} ExistingWitness(names: seq<Cell>, end: nat, c: Cell) returns (i: nat)
    requires end <= |names|
    requires c in Existing(names, end)
    ensures i < end && IsListedPlayer(names[i]) && names[i] == c
  {
    var last := names[end - 1];
    assert Existing(names, end) == Existing(names, end - 1) + (if IsListedPlayer(last) then {last} else {});
    if c in Existing(names, end - 1) {
      i := ExistingWitness(names, end - 1, c);
    } else if IsListedPlayer(last) {
      i := end - 1;
    } else {
      assert false;
    }
  }

  /**
   * Without a text payment on a compared row, a name is returned exactly
   * when some row with that name is paid: not blank, not the totals row, and
   * with a positive payment.
   */
  lemma {:induction false} PaidMembers(rows: seq<Row>, c: Cell)
    ensures AnyRaises(rows) ==> PaidParticipants(rows) == []
    ensures !AnyRaises(rows) ==>
              (c in PaidParticipants(rows) <==> exists i :: 0 <= i < |rows| && IsPaid(rows[i]) && rows[i].name == c)
  {
    if rows != [] && !AnyRaises(rows) {
      var front := rows[..|rows| - 1];
      assert forall i :: 0 <= i < |front| ==> front[i] == rows[i];
      assert !AnyRaises(front);
      PaidMembers(front, c);
      if c in PaidNames(front) {
        var i :| 0 <= i < |front| && IsPaid(front[i]) && front[i].name == c;
        assert rows[i] == front[i];
      }
    }
  }

  /** A paid name is never blank and never the totals row. */
  lemma PaidNamesAreNames(rows: seq<Row>, c: Cell)
    requires c in PaidParticipants(rows)
    ensures NotNull(c) && c != Text(TOTAL_ROW)
  {
    PaidMembers(rows, c);
  }

  /** The chosen folder's year label is its year part, the digits whose value was compared. */
  lemma YearLabelOfTournament(f: Folder)
    requires IsTournamentFolder(f)
    ensures IsDigits(YearLabel(f.name)) && DigitsValue(YearLabel(f.name)) == YearOf(f)
  {
    assert Contains(f.name, FOLDER_PREFIX);
  }

  /** `replace` drops every occurrence of "Turnir ", not only the leading one. */
  lemma YearLabelExamples()
    ensures YearLabel("Turnir 2025") == "2025"
    ensures YearLabel("Turnir 20Turnir 25") == "2025"
    ensures YearLabel("2025") == "UNKNOWN"
  {
    assert StartsWith("Turnir 2025", FOLDER_PREFIX);
    assert "Turnir 2025"[7..] == "2025";
    assert !Contains("2025", FOLDER_PREFIX);
    assert StartsWith("Turnir 20Turnir 25", FOLDER_PREFIX);
    var rest := "Turnir 20Turnir 25"[7..];
    assert rest == "20Turnir 25";
    assert rest[..7][0] != FOLDER_PREFIX[0];
    assert rest[1..][..7][0] != FOLDER_PREFIX[0];
    assert rest[2..] == "Turnir 25";
    assert StartsWith(rest[2..], FOLDER_PREFIX);
    assert rest[2..][7..] == "25";
    assert !Contains("25", FOLDER_PREFIX);
  }

  /**
   * `existing_participants` is collected once, before the loop, so a name
   * that appears twice among the paid participants takes two slots.
   */
  lemma RepeatedParticipantTakesTwoSlots()
    ensures var names := [Text("Играч 1"), Text("Играч 2")];
            var paid := [Text("Ана Анић"), Text("Ана Анић")];
            var r := FillAll(names, [Blank, Blank], paid, Setup(2, {}, true, map[], DEFAULT_RATING));
            r.names == paid && r.seeds == [Number(DEFAULT_RATING), Number(DEFAULT_RATING)] && r.updated == 2
  {
  }

  /**
   * A paid participant whose name itself starts with "Играч " is counted
   * as added, but the placeholder they fill is still a placeholder, so the
   * next participant overwrites them: two placements, one name in the sheet.
   */
  lemma PlaceholderNamedParticipantOverwritten()
    ensures var names := [Text("Играч 1")];
            var paid := [Text("Играч Х"), Text("Ана Анић")];
            var r := FillAll(names, [Blank], paid, Setup(1, {}, false, map[], DEFAULT_RATING));
            r.names == [Text("Ана Анић")] && r.updated == 2 && r.failed == []
  {
    var names := [Text("Играч 1")];
    var paid := [Text("Играч Х"), Text("Ана Анић")];
    var setup := Setup(1, {}, false, map[], DEFAULT_RATING);
    assert StartsWith("Играч 1", PLACEHOLDER_PREFIX) && StartsWith("Играч Х", PLACEHOLDER_PREFIX);
    assert paid[..1] == [Text("Играч Х")] && paid[..1][..0] == [];
    assert FirstPlaceholder(names, 1) == Some(0);
    assert FillAll(names, [Blank], paid[..1], setup).names == [Text("Играч Х")];
    assert paid[..2] == paid;
  }
}
