/**
  * Spreadsheet cells as pandas and openpyxl hand them to the scripts: a
  * missing value, a text, a boolean (an Excel TRUE or FALSE), or any other
  * value (a number, a date), kept as Python's `str` of it.
  */
module Sheets {

  datatype Cell = Blank | Text(text: string) | Bool(value: bool) | Number(shown: string)

  /** `pd.notna(cell)`. */
  predicate NotNa(c: Cell)
  {
    !c.Blank?
  }

  /** Python's `str(cell)`; an empty openpyxl cell is `None`. */
  function Str(c: Cell): string
  {
    match c
    case Blank => "None"
    case Text(t) => t
    case Bool(b) => if b then "True" else "False"
    case Number(s) => s
  }

  /**
    * Python's truth value of the cell's value: `False`, an empty text and a
    * zero (`0`, `0.0`, `-0.0`) are false.
    */
  predicate Truthy(c: Cell)
  {
    match c
    case Blank => false
    case Text(t) => t != ""
    case Bool(b) => b
    case Number(s) => s != "0" && s != "0.0" && s != "-0.0"
  }
}
