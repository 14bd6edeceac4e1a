/**
 * The in-memory part of code/azuriraj_ucesnike.py: paid participants are
 * written into the placeholder slots ("Играч N") of a tournament sheet, each
 * with their rating in the seed column.
 *
 * The sheet's first column (player names) and its 'Pocetni poredak' column
 * (seeds) are arrays of cells updated in place, as `df.at[...] = ...` does.
 */
module Tournament {
  import opened Optional
  import opened Strings
  import opened Cells

  /** The cell that closes the player slots. */
  const SLOTS_END_MARKER: string := "Непар"

  /** Placeholder slots read "Играч 1", "Играч 2", ... */
  const PLACEHOLDER_PREFIX: string := "Играч "

  /** Labels of the sheet's buttons and sections, which share the first column with the players. */
  const UI_LABELS: seq<string> := [
    "Унос играча", "Ресетовање", "Генериисање парова",
    "Ажурирање табеле", "Касни почеци", "Паузирање"
  ]

  /** A note row in the first column. */
  const NOTE_PREFIX: string := "Играчи који не треба"

  /** `default_rating` of `update_tournament_file` */
  const DEFAULT_RATING: int := 1400

  /** The name of the totals row of the participants sheet. */
  const TOTAL_ROW: string := "Укупно"

  predicate IsSlotsEnd(c: Cell) {
    NotNull(c) && Show(c) == SLOTS_END_MARKER
  }

  predicate IsPlaceholder(c: Cell) {
    NotNull(c) && StartsWith(Show(c), PLACEHOLDER_PREFIX)
  }

  /** A first-column cell that names an actual player already in the tournament. */
  predicate IsListedPlayer(c: Cell) {
    && NotNull(c)
    && !StartsWith(Show(c), PLACEHOLDER_PREFIX)
    && Show(c) !in UI_LABELS
    && !StartsWith(Show(c), NOTE_PREFIX)
    && !IsDigits(Show(c))
    && |Show(c)| > 3
  }

  /** `ratings_lookup.get(participant, default_rating)` */
  function RatingFor(lookup: map<Cell, int>, participant: Cell, default: int): int {
    if participant in lookup then lookup[participant] else default
  }

  // ---------------------------------------------------------------------
  // Specification of the scans
  // ---------------------------------------------------------------------

  /** `player_slots_end`: the index of the first "Непар" cell, or the length of the column. */
  function SlotsEndOf(names: seq<Cell>): (end: nat)
    ensures end <= |names|
    ensures forall i :: 0 <= i < end ==> !IsSlotsEnd(names[i])
    ensures end < |names| ==> IsSlotsEnd(names[end])
    decreases |names|
  {
    if names == [] || IsSlotsEnd(names[0]) then 0
    else
      assert forall i :: 1 <= i < |names| ==> names[i] == names[1..][i - 1];
      1 + SlotsEndOf(names[1..])
  }

  /** `existing_participants`: the listed players among the first `end` cells. */
  function Existing(names: seq<Cell>, end: nat): set<Cell>
    requires end <= |names|
  {
    if end == 0 then {}
    else Existing(names, end - 1) + (if IsListedPlayer(names[end - 1]) then {names[end - 1]} else {})
  }

  /** The first placeholder among the cells `from` .. `end - 1`. */
  function PlaceholderFrom(names: seq<Cell>, from: nat, end: nat): (slot: Option<nat>)
    requires end <= |names|
    ensures slot.Some? ==> from <= slot.value < end && IsPlaceholder(names[slot.value])
                           && forall j :: from <= j < slot.value ==> !IsPlaceholder(names[j])
    ensures slot.None? ==> forall j :: from <= j < end ==> !IsPlaceholder(names[j])
    decreases end - from
  {
    if from >= end then None
    else if IsPlaceholder(names[from]) then Some(from)
    else PlaceholderFrom(names, from + 1, end)
  }

  /** The first placeholder among the first `end` cells. */
  function FirstPlaceholder(names: seq<Cell>, end: nat): Option<nat>
    requires end <= |names|
  {
    PlaceholderFrom(names, 0, end)
  }

  /** How many placeholders the first `end` cells hold. */
  function PlaceholderCount(names: seq<Cell>, end: nat): nat
    requires end <= |names|
  {
    if end == 0 then 0
    else PlaceholderCount(names, end - 1) + (if IsPlaceholder(names[end - 1]) then 1 else 0)
  }

  // ---------------------------------------------------------------------
  // Specification of the filling loop
  // ---------------------------------------------------------------------

  datatype Column = NameColumn | SeedColumn

  /** One entry of `com_updates`: a row, a column and the value written there. */
  datatype Update = Update(row: nat, column: Column, value: Cell)

  /** What the scans before the loop fixed, and the loop's inputs besides the participants. */
  datatype Setup = Setup(end: nat, existing: set<Cell>, hasSeedColumn: bool, lookup: map<Cell, int>, default: int)

  /** The state of the loop: both columns, `updated_count`, `failed_participants`, `com_updates`. */
  datatype Fill = Fill(names: seq<Cell>, seeds: seq<Cell>, updated: nat, failed: seq<Cell>, updates: seq<Update>)

  predicate Fits(s: Fill, setup: Setup) {
    setup.end <= |s.names| && |s.seeds| == |s.names|
  }

  /** One turn of the loop, for one participant. */
  function Place(s: Fill, participant: Cell, setup: Setup): (r: Fill)
    requires Fits(s, setup)
    ensures Fits(r, setup)
  {
    if participant in setup.existing then s
    else match FirstPlaceholder(s.names, setup.end)
      case None => s.(failed := s.failed + [participant])
      case Some(i) =>
        var rating := Number(RatingFor(setup.lookup, participant, setup.default));
        Fill(s.names[i := participant],
             if setup.hasSeedColumn then s.seeds[i := rating] else s.seeds,
             s.updated + 1,
             s.failed,
             s.updates + [Update(i, NameColumn, participant)]
                       + (if setup.hasSeedColumn then [Update(i, SeedColumn, rating)] else []))
  }

  /** The state after the loop has handled `paid` in order. */
  function FillAll(names: seq<Cell>, seeds: seq<Cell>, paid: seq<Cell>, setup: Setup): (r: Fill)
    requires setup.end <= |names| && |seeds| == |names|
    ensures |r.names| == |names| && |r.seeds| == |seeds|
    decreases |paid|
  {
    if paid == [] then Fill(names, seeds, 0, [], [])
    else Place(FillAll(names, seeds, paid[..|paid| - 1], setup), paid[|paid| - 1], setup)
  }

  /** The participants the loop does not skip as already present, in order. */
  function Kept(paid: seq<Cell>, existing: set<Cell>): seq<Cell>
    decreases |paid|
  {
    if paid == [] then []
    else Kept(paid[..|paid| - 1], existing) + (if paid[|paid| - 1] in existing then [] else [paid[|paid| - 1]])
  }

  /** The setup `update_tournament_file` computes from the sheet it read. */
  function SetupFor(names: seq<Cell>, hasSeedColumn: bool, lookup: map<Cell, int>, default: int): (setup: Setup)
    ensures setup.end <= |names|
  {
    var end := SlotsEndOf(names);
    Setup(end, Existing(names, end), hasSeedColumn, lookup, default)
  }

  // ---------------------------------------------------------------------
  // The imperative code
  // ---------------------------------------------------------------------

  /** The tournament sheet as `update_tournament_file` reads it into a DataFrame. */
  class TournamentSheet {
    /** The first column: player names, placeholders, "Непар" and UI labels. */
    const names: array<Cell>
    /** The 'Pocetni poredak' column (starting seed), when the sheet has one. */
    const seeds: array<Cell>
    const hasSeedColumn: bool

    predicate Valid() {
      names != seeds && names.Length == seeds.Length
    }

    constructor (names: array<Cell>, seeds: array<Cell>, hasSeedColumn: bool)
      requires names != seeds && names.Length == seeds.Length
      ensures this.names == names && this.seeds == seeds && this.hasSeedColumn == hasSeedColumn
      ensures Valid()
    {
      this.names := names;
      this.seeds := seeds;
      this.hasSeedColumn := hasSeedColumn;
    }

    /** The scan for "Непар". */
    method SlotsEnd() returns (end: nat)
      ensures end == SlotsEndOf(names[..])
    {
      end := names.Length;
      var idx := 0;
      while idx < names.Length
        invariant idx <= names.Length
        invariant forall i :: 0 <= i < idx ==> !IsSlotsEnd(names[i])
      {
        if IsSlotsEnd(names[idx]) {
          end := idx;
          break;
        }
        idx := idx + 1;
      }
    }

    /** The scan that collects `existing_participants`. */
    method ExistingParticipants(end: nat) returns (existing: set<Cell>)
      requires end <= names.Length
      ensures existing == Existing(names[..], end)
    {
      existing := {};
      for idx := 0 to end
        invariant existing == Existing(names[..], idx)
      {
        var name := names[idx];
        if IsListedPlayer(name) {
          existing := existing + {name};
        }
      }
    }

    /** The inner `for` loop: the first placeholder slot before `end`. */
    method FindPlaceholder(end: nat) returns (slot: Option<nat>)
      requires end <= names.Length
      ensures slot == FirstPlaceholder(names[..], end)
    {
      slot := None;
      var idx := 0;
      while idx < end
        invariant idx <= end
        invariant FirstPlaceholder(names[..], end) == PlaceholderFrom(names[..], idx, end)
      {
        if IsPlaceholder(names[idx]) {
          slot := Some(idx);
          return;
        }
        idx := idx + 1;
      }
    }

    /** The body of the loop over `paid_participants`, for one participant. */
    method PlaceParticipant(participant: Cell, setup: Setup, updated: nat, failed: seq<Cell>, updates: seq<Update>)
      returns (updated': nat, failed': seq<Cell>, updates': seq<Update>)
      requires Valid() && setup.end <= names.Length && setup.hasSeedColumn == hasSeedColumn
      modifies names, seeds
      ensures Fill(names[..], seeds[..], updated', failed', updates')
           == Place(Fill(old(names[..]), old(seeds[..]), updated, failed, updates), participant, setup)
    {
      updated', failed', updates' := updated, failed, updates;
      if participant !in setup.existing {
        var slot := FindPlaceholder(setup.end);
        if slot.Some? {
          var idx := slot.value;
          names[idx] := participant;
          var rating := RatingFor(setup.lookup, participant, setup.default);
          if hasSeedColumn {
            seeds[idx] := Number(rating);
          }
          updates' := updates' + [Update(idx, NameColumn, participant)];
          if hasSeedColumn {
            updates' := updates' + [Update(idx, SeedColumn, Number(rating))];
          }
          updated' := updated' + 1;
        } else {
          failed' := failed' + [participant];
        }
      }
    }

    /**
     * `update_tournament_file` up to the save: fills placeholders with the
     * paid participants and returns `updated_count`, `failed_participants`
     * and `com_updates`.
     */
    method UpdateTournamentFile(paid: seq<Cell>, lookup: map<Cell, int>, defaultRating: int)
      returns (updated: nat, failed: seq<Cell>, updates: seq<Update>)
      requires Valid()
      modifies names, seeds
      ensures var r := FillAll(old(names[..]), old(seeds[..]), paid,
                               SetupFor(old(names[..]), hasSeedColumn, lookup, defaultRating));
              && names[..] == r.names && seeds[..] == r.seeds
              && updated == r.updated && failed == r.failed && updates == r.updates
    {
      ghost var names0 := names[..];
      ghost var seeds0 := seeds[..];
      var end := SlotsEnd();
      var existing := ExistingParticipants(end);
      var setup := Setup(end, existing, hasSeedColumn, lookup, defaultRating);
      assert setup == SetupFor(names0, hasSeedColumn, lookup, defaultRating);
      updated, failed, updates := 0, [], [];
      for k := 0 to |paid|
        invariant Fill(names[..], seeds[..], updated, failed, updates) == FillAll(names0, seeds0, paid[..k], setup)
      {
        assert paid[..k + 1][..k] == paid[..k];
        updated, failed, updates := PlaceParticipant(paid[k], setup, updated, failed, updates);
      }
      assert paid[..|paid|] == paid;
    }
  }

  // ---------------------------------------------------------------------
  // get_paid_participants
  // ---------------------------------------------------------------------

  /** One row of the participants sheet: the 'Име' and 'Уплаћено учешће' cells. */
  datatype Row = Row(name: Cell, payment: Cell)

  /** The rows whose payment reaches the `> 0` comparison. */
  predicate Compared(r: Row) {
    NotNull(r.name) && r.name != Text(TOTAL_ROW) && NotNull(r.payment)
  }

  /** Comparing a text with `0` raises a `TypeError`. */
  predicate Raises(r: Row) {
    Compared(r) && r.payment.Text?
  }

  predicate IsPaid(r: Row) {
    Compared(r) && r.payment.Number? && r.payment.n > 0
  }

  /** The names of the paid rows, in sheet order. */
  function PaidNames(rows: seq<Row>): seq<Cell>
    decreases |rows|
  {
    if rows == [] then []
    else PaidNames(rows[..|rows| - 1]) + (if IsPaid(rows[|rows| - 1]) then [rows[|rows| - 1].name] else [])
  }

  predicate AnyRaises(rows: seq<Row>) {
    exists i :: 0 <= i < |rows| && Raises(rows[i])
  }

  /** What `get_paid_participants` returns: the error handler's `[]` if any comparison raises. */
  function PaidParticipants(rows: seq<Row>): seq<Cell> {
    if AnyRaises(rows) then [] else PaidNames(rows)
  }

  /** `get_paid_participants`, after the sheet has been read. */
  method GetPaidParticipants(rows: seq<Row>) returns (paid: seq<Cell>)
    ensures paid == PaidParticipants(rows)
  {
    paid := [];
    for k := 0 to |rows|
      invariant !AnyRaises(rows[..k])
      invariant paid == PaidNames(rows[..k])
    {
      var row := rows[k];
      if Compared(row) {
        match row.payment
        case Text(_) =>
          assert rows[k] == row;
          return [];
        case Number(n) =>
          if n > 0 {
            paid := paid + [row.name];
          }
      }
      assert rows[..k + 1][..k] == rows[..k];
      assert forall i :: 0 <= i < k ==> rows[..k + 1][i] == rows[..k][i];
    }
    assert rows[..|rows|] == rows;
  }

  // ---------------------------------------------------------------------
  // main: the most recent tournament folder and its year
  // ---------------------------------------------------------------------

  const FOLDER_PREFIX: string := "Turnir "

  /** An entry of the project root: its name, and whether it is a directory. */
  datatype Folder = Folder(name: string, isDir: bool)

  /** A folder matched by `glob("Turnir *")` whose year part is a digit string. */
  predicate IsTournamentFolder(f: Folder) {
    StartsWith(f.name, FOLDER_PREFIX) && f.isDir && IsDigits(RemoveAll(f.name, FOLDER_PREFIX))
  }

  /** `int(year_part)` */
  function YearOf(f: Folder): nat
    requires IsTournamentFolder(f)
  {
    DigitsValue(RemoveAll(f.name, FOLDER_PREFIX))
  }

  /**
   * The folder loop of `main`: the first folder, in listing order, with the
   * highest year; `None` when no folder qualifies.
   */
  method LatestTournament(folders: seq<Folder>) returns (chosen: Option<nat>)
    ensures chosen.None? <==> forall j :: 0 <= j < |folders| ==> !IsTournamentFolder(folders[j])
    ensures chosen.Some? ==>
              && chosen.value < |folders| && IsTournamentFolder(folders[chosen.value])
              && (forall j :: 0 <= j < |folders| && IsTournamentFolder(folders[j]) ==>
                    YearOf(folders[j]) <= YearOf(folders[chosen.value]))
              && (forall j :: 0 <= j < chosen.value && IsTournamentFolder(folders[j]) ==>
                    YearOf(folders[j]) < YearOf(folders[chosen.value]))
  {
    chosen := None;
    for k := 0 to |folders|
      invariant chosen.None? <==> forall j :: 0 <= j < k ==> !IsTournamentFolder(folders[j])
      invariant chosen.Some? ==>
                  && chosen.value < k && IsTournamentFolder(folders[chosen.value])
                  && (forall j :: 0 <= j < k && IsTournamentFolder(folders[j]) ==>
                        YearOf(folders[j]) <= YearOf(folders[chosen.value]))
                  && (forall j :: 0 <= j < chosen.value && IsTournamentFolder(folders[j]) ==>
                        YearOf(folders[j]) < YearOf(folders[chosen.value]))
    {
      var folder := folders[k];
      if StartsWith(folder.name, FOLDER_PREFIX) && folder.isDir {
        var yearPart := RemoveAll(folder.name, FOLDER_PREFIX);
        if IsDigits(yearPart) {
          if chosen.None? || DigitsValue(yearPart) > YearOf(folders[chosen.value]) {
            chosen := Some(k);
          }
        }
      }
    }
  }

  /** The year `main` extracts from the chosen folder's name. */
  function YearLabel(folderName: string): string {
    if Contains(folderName, FOLDER_PREFIX) then RemoveAll(folderName, FOLDER_PREFIX) else "UNKNOWN"
  }
}
