/**
 * The screen-resolution line (FOptionMenuScreenResolutionLine): up to three resolution
 * texts side by side, of which the first mMaxValid + 1 are filled in, with a selected
 * column (mSelection) that Left and Right move with wrap-around, and a highlighted one.
 * All its state is reached through the keyed getters and setters.
 */
module ResolutionLine {
  import opened Wrappers
  import opened MenuKeys
  import opened Cycle

  const SrlIndex: int := 0x30000
  const SrlSelection: int := 0x30003
  const SrlHighlight: int := 0x30004

  /** One less than the index of the first empty text, or 2 when all three are filled. */
  function MaxValidOf(texts: seq<string>): (r: int)
    requires |texts| == 3
    ensures -1 <= r <= 2
    ensures forall k :: 0 <= k <= r ==> texts[k] != ""
    ensures r < 2 ==> texts[r + 1] == ""
  {
    if texts[0] == "" then -1
    else if texts[1] == "" then 0
    else if texts[2] == "" then 1
    else 2
  }

  /** The first len - 1 characters of t: what strncpy(s, t, len - 1) followed by s[len - 1] = 0 leaves in s. */
  function Truncate(t: string, len: int): (r: string)
    requires len >= 1
    ensures |r| <= len - 1 && |r| <= |t|
    ensures |r| == len - 1 || |r| == |t|
    ensures r <= t
  {
    if |t| <= len - 1 then t else t[..len - 1]
  }

  class ScreenResolutionLine {
    /** mResTexts. */
    const resTexts: array<string>
    var selection: int
    var highlight: int
    var maxValid: int

    ghost predicate Valid()
      reads this
    {
      resTexts.Length == 3
    }

    /** mMaxValid agrees with the texts, as after any SetString. */
    ghost predicate Consistent()
      reads this, resTexts
      requires Valid()
    {
      maxValid == MaxValidOf(resTexts[..])
    }

    /** The source leaves mMaxValid uninitialised; its first value is a parameter here. */
    constructor (initialMaxValid: int)
      ensures Valid() && fresh(resTexts) && resTexts[..] == ["", "", ""]
      ensures selection == 0 && highlight == -1 && maxValid == initialMaxValid
    {
      resTexts := new string[3]["", "", ""];
      selection := 0;
      highlight := -1;
      maxValid := initialMaxValid;
    }

    method SetValue(i: int, v: int) returns (ok: bool)
      modifies this`selection, this`highlight
      ensures Valid() == old(Valid())
      ensures ok <==> i == SrlSelection || i == SrlHighlight
      ensures selection == if i == SrlSelection then v else old(selection)
      ensures highlight == if i == SrlHighlight then v else old(highlight)
    {
      if i == SrlSelection {
        selection := v;
        return true;
      } else if i == SrlHighlight {
        highlight := v;
        return true;
      }
      return false;
    }

    /** Only the selection can be read back; any other index yields nothing. */
    function GetValue(i: int): (r: Option<int>)
      reads this
      ensures r.Some? <==> i == SrlSelection
      ensures r.Some? ==> r.value == selection
    {
      if i == SrlSelection then Some(selection) else None
    }

    /** Stores a text in one of the three slots and recomputes mMaxValid from them. */
    method SetString(i: int, newText: string) returns (ok: bool)
      requires Valid()
      modifies resTexts, this`maxValid
      ensures Valid()
      ensures ok <==> SrlIndex <= i <= SrlIndex + 2
      ensures ok ==> resTexts[..] == old(resTexts[..])[i - SrlIndex := newText] && Consistent()
      ensures !ok ==> resTexts[..] == old(resTexts[..]) && maxValid == old(maxValid)
    {
      if SrlIndex <= i <= SrlIndex + 2 {
        resTexts[i - SrlIndex] := newText;
        if resTexts[0] == "" {
          maxValid := -1;
        } else if resTexts[1] == "" {
          maxValid := 0;
        } else if resTexts[2] == "" {
          maxValid := 1;
        } else {
          maxValid := 2;
        }
        assert resTexts[..] == [resTexts[0], resTexts[1], resTexts[2]];
        return true;
      }
      return false;
    }

    /** One slot's text cut to a buffer of len characters including the terminator. */
    function GetString(i: int, len: int): (r: Option<string>)
      requires Valid()
      requires SrlIndex <= i <= SrlIndex + 2 ==> len >= 1
      reads this, resTexts
      ensures r.Some? <==> SrlIndex <= i <= SrlIndex + 2
      ensures r.Some? ==> r.value <= resTexts[i - SrlIndex]
      ensures r.Some? ==> |r.value| == if |resTexts[i - SrlIndex]| < len then |resTexts[i - SrlIndex]| else len - 1
    {
      if SrlIndex <= i <= SrlIndex + 2 then Some(Truncate(resTexts[i - SrlIndex], len)) else None
    }

    /**
     * Left steps the selection down and wraps below 0 to mMaxValid; Right steps it up and
     * wraps above mMaxValid to 0; other keys go to the base item, whose answer is
     * baseHandled. A selection inside 0..mMaxValid stays inside.
     */
    method MenuEvent(key: MenuKey, baseHandled: bool) returns (handled: bool)
      modifies this`selection
      ensures Valid() == old(Valid())
      ensures handled == if key.Left? || key.Right? then true else baseHandled
      ensures selection ==
        if key.Left? then StepDown(old(selection), maxValid)
        else if key.Right? then StepUp(old(selection), maxValid)
        else old(selection)
      ensures old(0 <= selection <= maxValid) ==> 0 <= selection <= maxValid
    {
      if key == Left {
        selection := selection - 1;
        if selection < 0 {
          selection := maxValid;
        }
        return true;
      } else if key == Right {
        selection := selection + 1;
        if selection > maxValid {
          selection := 0;
        }
        return true;
      }
      return baseHandled;
    }

    /** The line is selectable when at least one resolution is shown. */
    function Selectable(): (r: bool)
      reads this
      ensures r <==> maxValid >= 0
    {
      maxValid >= 0
    }

    /** The line is selectable exactly when its first text is filled in. */
    lemma SelectableIffFirstText()
      requires Valid() && Consistent()
      ensures Selectable() <==> resTexts[0] != ""
    {
    }
  }
}
