/**
 * A spreadsheet cell as pandas hands it to the scripts: empty (NaN),
 * a text, or an integer.
 */
module Cells {
  import opened Strings

  datatype Cell = Blank | Text(s: string) | Number(n: int)

  /** `pd.notna(c)` */
  predicate NotNull(c: Cell) {
    !c.Blank?
  }

  /** `str(c)` of a non-empty cell. */
  function Show(c: Cell): (s: string)
    requires NotNull(c)
    ensures c.Text? ==> s == c.s
    ensures c.Number? ==> s != [] && (IsDigit(s[0]) || s[0] == '-')
  {
    match c
    case Text(t) => t
    case Number(n) => IntToText(n)
  }
}
