/**
 * `replace_strings` of Rating/excel_to_csv.py: before the results are
 * exported, every cell that is exactly one of the known spellings of a
 * player's name is replaced by the player's canonical (Cyrillic) name.
 *
 * The exported table is a sequence of rows of cells; `DataFrame.replace`
 * matches whole cells only, in every column.
 */
module Aliases {
  import opened Optional
  import opened Cells

  type Table = seq<seq<Cell>>

  /** `replacement_map`, in its insertion order. */
  const ALIASES: seq<(string, string)> := [
    ("Vlada Vulovic", "Влада Вуловић"),
    ("Petar Spasic", "Петар Спасић"),
    ("Branislav Koledin", "Бранислав Коледин"),
    ("Ognjen Sobajic", "Огњен Шобајић"),
    ("Zeljko Nikolicic", "Жељко Николичић"),
    ("Dejan Subotic", "Дејан Суботић"),
    ("Jovica Spasic", "Јовица Спасић"),
    ("Milan Stefanovic", "Милан Стефановић"),
    ("Vojislav Kokeza", "Војислав Кокеза"),
    ("Predrag Roso", "Предраг Росо"),
    ("Mirko Spasojevic", "Мирко Спасојевић"),
    ("Aca Spasojevic", "Аца Спасојевић"),
    ("Dalibor Marceta", "Далибор Марчета"),
    ("Nikola Rudic", "Никола Рудић"),
    ("Aca", "Аца Спасојевић"),
    ("Mirko", "Мирко Спасојевић"),
    ("Воја Кокеза", "Војислав Кокеза")
  ]

  /** `replace(old_value, new_value)` on one cell: only an exact match is replaced. */
  function ReplaceCell(c: Cell, oldValue: string, newValue: string): Cell {
    if c == Text(oldValue) then Text(newValue) else c
  }

  /** `df.replace(old_value, new_value)` */
  function ReplaceInTable(t: Table, oldValue: string, newValue: string): (r: Table)
    ensures |r| == |t|
    ensures forall i :: 0 <= i < |t| ==> |r[i]| == |t[i]|
    ensures forall i, j :: 0 <= i < |t| && 0 <= j < |t[i]| ==> r[i][j] == ReplaceCell(t[i][j], oldValue, newValue)
  {
    seq(|t|, i requires 0 <= i < |t| =>
      seq(|t[i]|, j requires 0 <= j < |t[i]| => ReplaceCell(t[i][j], oldValue, newValue)))
  }

  /** One cell after the replacements of `pairs`, applied in order. */
  function ApplyAll(c: Cell, pairs: seq<(string, string)>): Cell
    decreases |pairs|
  {
    if pairs == [] then c
    else ReplaceCell(ApplyAll(c, pairs[..|pairs| - 1]), pairs[|pairs| - 1].0, pairs[|pairs| - 1].1)
  }

  /** The replacement `pairs` gives for `s`: the value of its first pair with key `s`. */
  function Lookup(pairs: seq<(string, string)>, s: string): (r: Option<string>)
    ensures r.None? <==> forall i :: 0 <= i < |pairs| ==> pairs[i].0 != s
    ensures r.Some? ==> exists i :: 0 <= i < |pairs| && pairs[i] == (s, r.value)
    decreases |pairs|
  {
    if pairs == [] then None
    else match Lookup(pairs[..|pairs| - 1], s)
      case Some(v) =>
        assert forall i :: 0 <= i < |pairs| - 1 ==> pairs[..|pairs| - 1][i] == pairs[i];
        Some(v)
      case None =>
        assert forall i :: 0 <= i < |pairs| - 1 ==> pairs[..|pairs| - 1][i] == pairs[i];
        if pairs[|pairs| - 1].0 == s then Some(pairs[|pairs| - 1].1) else None
  }

  /** The canonical form of a cell: a known alias becomes the player's name, anything else stays. */
  function Canonical(pairs: seq<(string, string)>, c: Cell): Cell {
    if c.Text? && Lookup(pairs, c.s).Some? then Text(Lookup(pairs, c.s).value) else c
  }

  predicate KeysDistinct(pairs: seq<(string, string)>) {
    forall i, j :: 0 <= i < j < |pairs| ==> pairs[i].0 != pairs[j].0
  }

  /** No replacement produces a text that a replacement would rewrite again. */
  predicate ValuesNotKeys(pairs: seq<(string, string)>) {
    forall i, j :: 0 <= i < |pairs| && 0 <= j < |pairs| ==> pairs[i].1 != pairs[j].0
  }

  /** `replace_strings(df)` */
  method ReplaceStrings(df: Table) returns (result: Table)
    ensures |result| == |df|
    ensures forall i :: 0 <= i < |df| ==> |result[i]| == |df[i]|
    ensures forall i, j :: 0 <= i < |df| && 0 <= j < |df[i]| ==> result[i][j] == Canonical(ALIASES, df[i][j])
  {
    result := df;
    for k := 0 to |ALIASES|
      invariant |result| == |df|
      invariant forall i :: 0 <= i < |df| ==> |result[i]| == |df[i]|
      invariant forall i, j :: 0 <= i < |df| && 0 <= j < |df[i]| ==> result[i][j] == ApplyAll(df[i][j], ALIASES[..k])
    {
      var (oldValue, newValue) := ALIASES[k];
      result := ReplaceInTable(result, oldValue, newValue);
      assert ALIASES[..k + 1][..k] == ALIASES[..k];
    }
    assert ALIASES[..|ALIASES|] == ALIASES;
    AliasKeysDistinct();
    AliasValuesNotKeys();
    forall i, j | 0 <= i < |df| && 0 <= j < |df[i]|
      ensures result[i][j] == Canonical(ALIASES, df[i][j])
    {
      ApplyAllIsCanonical(ALIASES, df[i][j]);
    }
  }

  /**
   * With distinct keys, and no value that is also a key, applying the
   * replacements one after the other is a single lookup per cell.
   */
  lemma {:induction false} ApplyAllIsCanonical(pairs: seq<(string, string)>, c: Cell)
    requires KeysDistinct(pairs) && ValuesNotKeys(pairs)
    ensures ApplyAll(c, pairs) == Canonical(pairs, c)
  {
    if pairs != [] {
      var front := pairs[..|pairs| - 1];
      var (o, n) := pairs[|pairs| - 1];
      assert forall i :: 0 <= i < |front| ==> front[i] == pairs[i];
      ApplyAllIsCanonical(front, c);
      if c.Text? && Lookup(front, c.s).Some? {
        var v := Lookup(front, c.s).value;
        var i :| 0 <= i < |front| && front[i] == (c.s, v);
        assert pairs[i].1 != pairs[|pairs| - 1].0;
      }
    }
  }

  /** A canonical name is left alone by the replacements. */
  lemma CanonicalIdempotent(pairs: seq<(string, string)>, c: Cell)
    requires ValuesNotKeys(pairs)
    ensures Canonical(pairs, Canonical(pairs, c)) == Canonical(pairs, c)
  {
    if c.Text? && Lookup(pairs, c.s).Some? {
      var v := Lookup(pairs, c.s).value;
      var i :| 0 <= i < |pairs| && pairs[i] == (c.s, v);
      assert forall j :: 0 <= j < |pairs| ==> pairs[j].0 != v;
    }
  }

  /** The canonical name of entry `i` is no alias. */
  lemma ValueIsNoKey(i: nat)
    requires i < |ALIASES|
    ensures forall j :: 0 <= j < |ALIASES| ==> ALIASES[i].1 != ALIASES[j].0
  {
  }

  /** The alias of entry `i` differs from every later alias. */
  lemma KeyIsUnique(i: nat)
    requires i < |ALIASES|
    ensures forall j :: i < j < |ALIASES| ==> ALIASES[i].0 != ALIASES[j].0
  {
  }

  /** `replacement_map` is a dict: its keys are distinct. */
  lemma AliasKeysDistinct()
    ensures KeysDistinct(ALIASES)
  {
    forall i | 0 <= i < |ALIASES|
      ensures forall j :: i < j < |ALIASES| ==> ALIASES[i].0 != ALIASES[j].0
    {
      KeyIsUnique(i);
    }
  }

  /** No canonical name in `replacement_map` is itself an alias. */
  lemma AliasValuesNotKeys()
    ensures ValuesNotKeys(ALIASES)
  {
    forall i | 0 <= i < |ALIASES|
      ensures forall j :: 0 <= j < |ALIASES| ==> ALIASES[i].1 != ALIASES[j].0
    {
      ValueIsNoKey(i);
    }
  }

  /** A key finds the value of its first pair. */
  lemma {:induction false} LookupFirst(pairs: seq<(string, string)>, i: nat)
    requires i < |pairs|
    requires forall j :: 0 <= j < i ==> pairs[j].0 != pairs[i].0
    ensures Lookup(pairs, pairs[i].0) == Some(pairs[i].1)
  {
    var front := pairs[..|pairs| - 1];
    if i < |pairs| - 1 {
      assert front[i] == pairs[i];
      assert forall j :: 0 <= j < i ==> front[j] == pairs[j];
      LookupFirst(front, i);
    } else {
      assert forall j :: 0 <= j < |front| ==> front[j] == pairs[j];
    }
  }

  /** "Aca", "Aca Spasojevic" and "Аца Спасојевић" all become "Аца Спасојевић". */
  lemma AcaGroup()
    ensures Canonical(ALIASES, Text("Aca")) == Text("Аца Спасојевић")
    ensures Canonical(ALIASES, Text("Aca Spasojevic")) == Text("Аца Спасојевић")
    ensures Canonical(ALIASES, Text("Аца Спасојевић")) == Text("Аца Спасојевић")
  {
    LookupFirst(ALIASES, 14);
    LookupFirst(ALIASES, 11);
    ValueIsNoKey(11);
  }

  /** "Mirko", "Mirko Spasojevic" and "Мирко Спасојевић" all become "Мирко Спасојевић". */
  lemma MirkoGroup()
    ensures Canonical(ALIASES, Text("Mirko")) == Text("Мирко Спасојевић")
    ensures Canonical(ALIASES, Text("Mirko Spasojevic")) == Text("Мирко Спасојевић")
    ensures Canonical(ALIASES, Text("Мирко Спасојевић")) == Text("Мирко Спасојевић")
  {
    LookupFirst(ALIASES, 15);
    LookupFirst(ALIASES, 10);
    ValueIsNoKey(10);
  }

  /** "Воја Кокеза", "Vojislav Kokeza" and "Војислав Кокеза" all become "Војислав Кокеза". */
  lemma VojislavGroup()
    ensures Canonical(ALIASES, Text("Воја Кокеза")) == Text("Војислав Кокеза")
    ensures Canonical(ALIASES, Text("Vojislav Kokeza")) == Text("Војислав Кокеза")
    ensures Canonical(ALIASES, Text("Војислав Кокеза")) == Text("Војислав Кокеза")
  {
    LookupFirst(ALIASES, 16);
    LookupFirst(ALIASES, 8);
    ValueIsNoKey(8);
  }

  /** Matching is on whole cells: a text that merely contains an alias is kept. */
  lemma WholeCellsOnly()
    ensures Canonical(ALIASES, Text("Aca Petrovic")) == Text("Aca Petrovic")
  {
    assert forall j :: 0 <= j < |ALIASES| ==> ALIASES[j].0 != "Aca Petrovic";
  }
}
