/** Spreadsheet rows as the scripts receive them from `sheet_to_json`, and
    the `String(value || '').toUpperCase()` shaping both scripts apply to
    the name and role cells. */
module Cells {
  import opened Text

  /** A cell value: a string, an integer, a boolean, or nothing
      (`undefined`, the value of a key the row does not have). */
  datatype Cell = Str(s: string) | Num(n: int) | Bool(b: bool) | Blank

  /** A row maps each header to its cell. */
  type Row = map<string, Cell>

  /** `row[key]`: `undefined` when the row has no such key. */
  function Lookup(row: Row, key: string): Cell
  {
    if key in row then row[key] else Blank
  }

  /** JavaScript truthiness of a cell: '', 0, false and undefined are falsy. */
  predicate Truthy(c: Cell) {
    match c
    case Str(s) => s != ""
    case Num(n) => n != 0
    case Bool(b) => b
    case Blank => false
  }

  function DigitChar(d: int): (r: char)
    requires 0 <= d < 10
    ensures '0' <= r <= '9'
  {
    ('0' as int + d) as char
  }

  /** Decimal digits of a natural number, most significant first. */
  function NatToString(n: nat): (r: string)
    ensures |r| >= 1
    ensures forall i :: 0 <= i < |r| ==> '0' <= r[i] <= '9'
    ensures (r[0] == '0') <==> (n == 0)
  {
    if n < 10 then [DigitChar(n)] else NatToString(n / 10) + [DigitChar(n % 10)]
  }

  /** `String(v)` on a cell that is truthy. */
  function Stringify(c: Cell): (r: string)
    requires Truthy(c)
    ensures r != ""
    ensures c.Str? ==> r == c.s
  {
    match c
    case Str(s) => s
    case Num(n) => if n < 0 then "-" + NatToString(-n) else NatToString(n)
    case Bool(_) => "true"
  }

  /** `String(v || '')`: the text of a truthy cell, the empty string otherwise. */
  function CellText(c: Cell): (r: string)
    ensures r == "" <==> !Truthy(c)
    ensures c.Str? ==> r == c.s
  {
    if Truthy(c) then Stringify(c) else ""
  }

  /** `String(v || '').toUpperCase()`, the normalised text of a cell. */
  function Normalized(c: Cell): (r: string)
    ensures |r| == |CellText(c)|
  {
    Upper(CellText(c))
  }

  /** A missing or falsy cell becomes the empty string, and only such a cell
      does; a string cell keeps its length and is upper-cased letter by letter. */
  lemma NormalizedCell(c: Cell)
    ensures Normalized(c) == "" <==> !Truthy(c)
    ensures c.Str? ==> |Normalized(c)| == |c.s|
    ensures c.Str? ==> forall i :: 0 <= i < |c.s| ==> Normalized(c)[i] == UpperChar(c.s[i])
  {
    if Truthy(c) {
      assert |Normalized(c)| == |Stringify(c)| > 0;
    }
  }

  /** The number a string of decimal digits denotes. */
  function DigitsValue(s: string): (v: nat)
    requires forall i :: 0 <= i < |s| ==> '0' <= s[i] <= '9'
  {
    if s == [] then 0 else 10 * DigitsValue(s[..|s| - 1]) + (s[|s| - 1] as int - '0' as int)
  }

  /** The decimal text of an integer cell reads back as that integer. */
  lemma {:induction false} NatToStringRoundTrip(n: nat)
    ensures DigitsValue(NatToString(n)) == n
  {
    if n >= 10 {
      var r := NatToString(n);
      assert r[..|r| - 1] == NatToString(n / 10);
      NatToStringRoundTrip(n / 10);
    }
  }
}
