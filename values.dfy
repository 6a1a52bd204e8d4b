/** Cell values as the spreadsheet decoder hands them over. */
module Values {
  import opened Text

  /** A decoded cell value: a boolean, an integer or a text. */
  datatype Value = BoolV(b: bool) | IntV(i: int) | StrV(s: string)

  /** Python truthiness of a value. */
  predicate Truthy(v: Value)
  {
    match v
    case BoolV(b) => b
    case IntV(i) => i != 0
    case StrV(s) => s != ""
  }

  /** Python's `str(value)`. */
  function Str(v: Value): string
  {
    match v
    case BoolV(b) => if b then "True" else "False"
    case IntV(i) => IntToDecimal(i)
    case StrV(s) => s
  }
}
