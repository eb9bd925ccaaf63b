/** One cell of the grid: the formula body it was last given and the text it
    currently displays. */
module Cells {
  import opened JavaText

  class Cell {
    /** The formula without its leading `=`, upper-cased; "" for none. */
    var formula: string
    /** The display value: a literal, a computed number or an error code. */
    var value: string

    constructor ()
      ensures formula == "" && value == ""
    {
      formula := "";
      value := "";
    }

    method GetFormula() returns (f: string)
      ensures f == formula
    {
      f := formula;
    }

    /** Stores the upper-cased input minus its first character (the `=`); an
        empty input leaves the old formula in place. */
    method SetFormula(s: string)
      modifies this
      ensures s != [] ==> formula == ToUpper(s)[1..]
      ensures s == [] ==> formula == old(formula)
      ensures value == old(value)
    {
      if s != [] {
        formula := ToUpper(s)[1..];
      }
    }

    method GetValue() returns (v: string)
      ensures v == value
    {
      v := value;
    }

    method SetValue(v: string)
      modifies this
      ensures value == v && formula == old(formula)
    {
      value := v;
    }

    method IsEmpty() returns (b: bool)
      ensures b <==> value == []
    {
      b := value == [];
    }
  }
}
