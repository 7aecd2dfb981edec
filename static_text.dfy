/**
 * Switchable static text (FOptionMenuItemStaticTextSwitchable): a label that shows its
 * alternative text while mCurrent is non-zero. Both are set through the keyed setters
 * with index 0; the line can never be selected.
 */
module StaticText {
  class StaticTextSwitchable {
    const mainText: string
    var altText: string
    var current: int

    constructor (mainText: string, altText0: string)
      ensures this.mainText == mainText && altText == altText0 && current == 0
    {
      this.mainText := mainText;
      altText := altText0;
      current := 0;
    }

    method SetValue(i: int, v: int) returns (ok: bool)
      modifies this`current
      ensures ok <==> i == 0
      ensures current == if i == 0 then v else old(current)
    {
      if i == 0 {
        current := v;
        return true;
      }
      return false;
    }

    method SetString(i: int, newText: string) returns (ok: bool)
      modifies this`altText
      ensures ok <==> i == 0
      ensures altText == if i == 0 then newText else old(altText)
    {
      if i == 0 {
        altText := newText;
        return true;
      }
      return false;
    }

    /** Static text is never selectable. */
    function Selectable(): (r: bool)
      ensures !r
    {
      false
    }
  }
}
