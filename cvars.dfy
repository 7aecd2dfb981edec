/**
 * Console variables as the option items see them. The registry that owns them
 * and converts between their representations is not modelled: a CVar here is an
 * object holding the string and the float representation that GetGenericRep
 * returns, and SetGenericRep of one kind overwrites that one only.
 */
module CVars {
  datatype CVarRep = CVarRep(text: string, number: real)

  class CVar {
    var rep: CVarRep

    constructor (rep0: CVarRep)
      ensures rep == rep0
    {
      rep := rep0;
    }
  }

  /** An FBoolCVar, as read by the gray-check of an option list. */
  class BoolCVar {
    var value: bool

    constructor (value0: bool)
      ensures value == value0
    {
      value := value0;
    }
  }

  /** A plain float variable a slider points at. */
  class FloatVar {
    var value: real

    constructor (value0: real)
      ensures value == value0
    {
      value := value0;
    }
  }
}
