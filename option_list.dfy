/**
 * Option lists (FOptionMenuItemOptionBase with its concrete FOptionMenuItemOption):
 * a menu line that cycles a CVar through a named list of values. The item keeps no
 * index of its own: the current selection is the first list entry that matches the
 * CVar, found by GetSelection, and choosing an entry writes it into the CVar with
 * SetSelection.
 */
module OptionList {
  import opened Wrappers
  import opened MenuKeys
  import opened NoCase
  import opened CVars
  import opened Cycle

  /** The SetString index that replaces the value list. */
  const OpValues: int := 0x11001

  /** FLT_EPSILON, 2^-23. */
  const FltEpsilon: real := 1.0 / 8388608.0

  /** One pair of an option-value list: the number, the text shown, and the text stored. */
  datatype OptionEntry = OptionEntry(value: real, text: string, textValue: string)

  /** A list whose first entry has an empty TextValue is numeric; any other non-empty list is textual. */
  predicate TextMode(entries: seq<OptionEntry>)
  {
    |entries| > 0 && entries[0].textValue != ""
  }

  /** The numeric comparison of optionmenuitems.h:274: the two values differ by less than FLT_EPSILON, over the reals. */
  predicate Close(a: real, b: real)
  {
    -FltEpsilon < a - b < FltEpsilon
  }

  /** Whether entry e is the CVar's current value, compared as text or as a number. */
  predicate EntryMatches(e: OptionEntry, textMode: bool, rep: CVarRep)
  {
    if textMode then EqualsNoCase(e.textValue, rep.text) else Close(rep.number, e.value)
  }

  /** The first index at or after i whose entry matches, or -1. */
  function FirstMatchFrom(entries: seq<OptionEntry>, textMode: bool, rep: CVarRep, i: nat): (r: int)
    requires i <= |entries|
    ensures r == -1 || i <= r < |entries|
    ensures r >= 0 ==> EntryMatches(entries[r], textMode, rep)
    ensures r >= 0 ==> forall j :: i <= j < r ==> !EntryMatches(entries[j], textMode, rep)
    ensures r == -1 ==> forall j :: i <= j < |entries| ==> !EntryMatches(entries[j], textMode, rep)
    decreases |entries| - i
  {
    if i == |entries| then -1
    else if EntryMatches(entries[i], textMode, rep) then i
    else FirstMatchFrom(entries, textMode, rep, i + 1)
  }

  /** The selection GetSelection finds in a (non-NULL) list for a (non-NULL) CVar. */
  function SelectionIn(entries: seq<OptionEntry>, rep: CVarRep): (r: int)
    ensures -1 <= r < |entries|
    ensures r >= 0 ==> EntryMatches(entries[r], TextMode(entries), rep)
    ensures r >= 0 ==> forall j :: 0 <= j < r ==> !EntryMatches(entries[j], TextMode(entries), rep)
    ensures r == -1 <==> forall j :: 0 <= j < |entries| ==> !EntryMatches(entries[j], TextMode(entries), rep)
  {
    if |entries| == 0 then -1 else FirstMatchFrom(entries, TextMode(entries), rep, 0)
  }

  /** The CVar after SetSelection(sel) on a non-empty list: the entry's TextValue or Value is stored. */
  function WriteSelection(entries: seq<OptionEntry>, sel: int, rep: CVarRep): CVarRep
    requires 0 <= sel < |entries|
  {
    if TextMode(entries) then rep.(text := entries[sel].textValue) else rep.(number := entries[sel].value)
  }

  /** Entries i and j store values that GetSelection cannot tell apart. */
  predicate Equivalent(entries: seq<OptionEntry>, i: int, j: int)
    requires 0 <= i < |entries| && 0 <= j < |entries|
  {
    if TextMode(entries) then EqualsNoCase(entries[i].textValue, entries[j].textValue)
    else Close(entries[j].value, entries[i].value)
  }

  /** No two entries of the list are equivalent. */
  predicate Distinct(entries: seq<OptionEntry>)
  {
    forall i, j :: 0 <= i < j < |entries| ==> !Equivalent(entries, i, j)
  }

  /**
   * Writing entry sel into the CVar and reading the selection back finds the first
   * entry equivalent to sel; in a list without equivalent entries that is sel itself.
   */
  lemma SelectAfterWrite(entries: seq<OptionEntry>, sel: int, rep: CVarRep)
    requires 0 <= sel < |entries|
    ensures 0 <= SelectionIn(entries, WriteSelection(entries, sel, rep)) <= sel
    ensures Equivalent(entries, SelectionIn(entries, WriteSelection(entries, sel, rep)), sel)
    ensures Distinct(entries) ==> SelectionIn(entries, WriteSelection(entries, sel, rep)) == sel
  {
    var w := WriteSelection(entries, sel, rep);
    assert EntryMatches(entries[sel], TextMode(entries), w) by {
      if TextMode(entries) {
        assert EqualsNoCase(entries[sel].textValue, w.text);
      }
    }
    var r := SelectionIn(entries, w);
    assert Equivalent(entries, r, sel);
  }

  /** The selection a cycling key moves to from s in a list of n entries; -1 is an unknown selection. */
  function NextSelection(key: MenuKey, s: int, n: int): (r: int)
    requires n > 0 && IsCycleKey(key) && -1 <= s < n
    ensures 0 <= r < n
  {
    if key.Left? then (if s == -1 then 0 else StepDown(s, n - 1))
    else StepUp(s, n - 1)
  }

  /**
   * Left from an unknown selection goes to the first entry, from the first entry to the
   * last, and otherwise one back; Right and Enter go one forward and wrap from the last
   * entry to the first (an unknown selection goes to the first).
   */
  lemma NextSelectionCases(key: MenuKey, s: int, n: int)
    requires n > 0 && IsCycleKey(key) && -1 <= s < n
    ensures key.Left? && s == -1 ==> NextSelection(key, s, n) == 0
    ensures key.Left? && s == 0 ==> NextSelection(key, s, n) == n - 1
    ensures key.Left? && s > 0 ==> NextSelection(key, s, n) == s - 1
    ensures !key.Left? && s == n - 1 ==> NextSelection(key, s, n) == 0
    ensures !key.Left? && s < n - 1 ==> NextSelection(key, s, n) == s + 1
  {
  }

  /** Within a known selection, Left undoes Right and Right undoes Left. */
  lemma LeftUndoesRight(s: int, n: int)
    requires 0 <= s < n
    ensures NextSelection(Left, NextSelection(Right, s, n), n) == s
    ensures NextSelection(Right, NextSelection(Left, s, n), n) == s
  {
    StepsAreInverse(s, n - 1);
  }

  /** The readjustment of the selection after the list is replaced, as corrected: anything outside the list becomes 0. */
  function Readjust(s: int, n: int): (r: int)
    requires n > 0
    ensures 0 <= r < n
    ensures 0 <= s < n ==> r == s
    ensures !(0 <= s < n) ==> r == 0
  {
    if s < 0 || s >= n then 0 else s
  }

  /** The readjustment as optionmenuitems.h:173 writes it: only an index at or past the list size is reset to 0. */
  function ReadjustAsWritten(s: int, n: int): int
  {
    if s >= n then 0 else s
  }

  /**
   * The guard as written never fires on a real selection, since GetSelection has
   * already searched the new list; an unmatched CVar leaves -1, which SetSelection
   * then uses as an index.
   */
  lemma ReadjustAsWrittenKeepsUnknown(entries: seq<OptionEntry>, rep: CVarRep)
    requires |entries| > 0
    ensures ReadjustAsWritten(SelectionIn(entries, rep), |entries|) == SelectionIn(entries, rep)
    ensures (forall j :: 0 <= j < |entries| ==> !EntryMatches(entries[j], TextMode(entries), rep))
      ==> ReadjustAsWritten(SelectionIn(entries, rep), |entries|) == -1
  {
  }

  /** A concrete list and CVar for which the index passed to SetSelection is -1. */
  lemma ReadjustAsWrittenCounterexample()
    ensures ReadjustAsWritten(
      SelectionIn([OptionEntry(0.0, "On", "on"), OptionEntry(1.0, "Off", "off")], CVarRep("auto", 0.0)), 2) == -1
  {
  }

  class OptionItem {
    /** mValues; None for a list name the registry did not know. */
    var values: Option<seq<OptionEntry>>
    /** mCVar, the CVar named by the item's action. */
    const cvar: CVar?
    /** mGrayCheck; null when absent or not a bool CVar. */
    const grayCheck: BoolCVar?

    /** The line's selection: what GetSelection returns in the current state. */
    ghost function Selection(): int
      reads this, cvar
    {
      if values.None? || cvar == null then -1 else SelectionIn(values.value, cvar.rep)
    }

    /** The CVar after SetSelection(sel). */
    ghost function AfterSetSelection(sel: int): CVarRep
      reads this, cvar
      requires cvar != null
      requires values.Some? && |values.value| > 0 ==> 0 <= sel < |values.value|
    {
      if values.Some? && |values.value| > 0 then WriteSelection(values.value, sel, cvar.rep) else cvar.rep
    }

    /** The value list is looked up by name in the registry of option-value lists. */
    constructor (registry: map<string, seq<OptionEntry>>, valuesName: string, cvar: CVar?, grayCheck: BoolCVar?)
      ensures values == (if valuesName in registry then Some(registry[valuesName]) else None)
      ensures this.cvar == cvar && this.grayCheck == grayCheck
    {
      if valuesName in registry {
        values := Some(registry[valuesName]);
      } else {
        values := None;
      }
      this.cvar := cvar;
      this.grayCheck := grayCheck;
    }

    /** The index of the first entry that matches the CVar; -1 without a list, a CVar, entries or a match. */
    method GetSelection() returns (r: int)
      ensures r == Selection()
      ensures values.None? || cvar == null || |values.value| == 0 ==> r == -1
      ensures values.Some? && cvar != null ==> -1 <= r < |values.value|
    {
      r := -1;
      if values.Some? && cvar != null && |values.value| > 0 {
        var entries := values.value;
        if entries[0].textValue == "" {
          var cv := cvar.rep.number;
          for i := 0 to |entries|
            invariant FirstMatchFrom(entries, false, cvar.rep, 0) == FirstMatchFrom(entries, false, cvar.rep, i)
          {
            if Close(cv, entries[i].value) {
              r := i;
              break;
            }
          }
        } else {
          var cv := cvar.rep.text;
          for i := 0 to |entries|
            invariant FirstMatchFrom(entries, true, cvar.rep, 0) == FirstMatchFrom(entries, true, cvar.rep, i)
          {
            if EqualsNoCase(entries[i].textValue, cv) {
              r := i;
              break;
            }
          }
        }
      }
    }

    /** Stores entry sel in the CVar: its TextValue for a textual list, its Value for a numeric one. */
    method SetSelection(sel: int)
      requires values.Some? && cvar != null && |values.value| > 0 ==> 0 <= sel < |values.value|
      modifies cvar
      ensures cvar != null ==> cvar.rep == old(AfterSetSelection(sel))
    {
      if values.Some? && cvar != null && |values.value| > 0 {
        var entries := values.value;
        if entries[0].textValue == "" {
          cvar.rep := cvar.rep.(number := entries[sel].value);
        } else {
          cvar.rep := cvar.rep.(text := entries[sel].textValue);
        }
      }
    }

    /**
     * Left, Right and Enter move the selection of a non-empty list and store it in the
     * CVar; with an empty list every key is taken and nothing changes; other keys go to
     * the base item, whose answer is baseHandled.
     */
    method MenuEvent(key: MenuKey, baseHandled: bool) returns (handled: bool)
      requires values.Some?
      modifies cvar
      ensures handled == if |values.value| > 0 && !IsCycleKey(key) then baseHandled else true
      ensures |values.value| > 0 && IsCycleKey(key) && cvar != null ==>
        cvar.rep == WriteSelection(values.value, NextSelection(key, old(Selection()), |values.value|), old(cvar.rep))
      ensures |values.value| > 0 && IsCycleKey(key) && cvar != null ==> 0 <= Selection() < |values.value|
      ensures |values.value| > 0 && IsCycleKey(key) && cvar != null && Distinct(values.value) ==>
        Selection() == NextSelection(key, old(Selection()), |values.value|)
      ensures !(|values.value| > 0 && IsCycleKey(key)) && cvar != null ==> cvar.rep == old(cvar.rep)
    {
      var n := |values.value|;
      if n > 0 {
        var selection := GetSelection();
        if key == Left {
          if selection == -1 {
            selection := 0;
          } else {
            selection := selection - 1;
            if selection < 0 {
              selection := n - 1;
            }
          }
        } else if key == Right || key == Enter {
          selection := selection + 1;
          if selection >= n {
            selection := 0;
          }
        } else {
          return baseHandled;
        }
        ghost var before := if cvar != null then cvar.rep else CVarRep("", 0.0);
        SetSelection(selection);
        if cvar != null {
          SelectAfterWrite(values.value, selection, before);
        }
      }
      return true;
    }

    /**
     * OP_VALUES with a registered list name installs that list, readjusts the CVar to a
     * selection inside it and answers true; every other call answers false and changes nothing.
     */
    method SetString(i: int, newText: string, registry: map<string, seq<OptionEntry>>) returns (ok: bool)
      modifies this, cvar
      ensures ok == (i == OpValues && newText in registry)
      ensures ok ==> values == Some(registry[newText])
      ensures !ok ==> values == old(values)
      ensures !ok && cvar != null ==> cvar.rep == old(cvar.rep)
      ensures ok && cvar != null && |registry[newText]| == 0 ==> cvar.rep == old(cvar.rep)
      ensures ok && cvar != null && |registry[newText]| > 0 ==>
        cvar.rep == WriteSelection(registry[newText],
          Readjust(SelectionIn(registry[newText], old(cvar.rep)), |registry[newText]|), old(cvar.rep))
      ensures ok && cvar != null && |registry[newText]| > 0 ==> 0 <= Selection() < |registry[newText]|
      ensures ok && cvar != null && Distinct(registry[newText]) && 0 <= SelectionIn(registry[newText], old(cvar.rep)) ==>
        Selection() == SelectionIn(registry[newText], old(cvar.rep))
    {
      ok := false;
      if i == OpValues {
        if newText in registry {
          var entries := registry[newText];
          values := Some(entries);
          var s := GetSelection();
          if |entries| > 0 {
            s := Readjust(s, |entries|);
            ghost var before := if cvar != null then cvar.rep else CVarRep("", 0.0);
            SetSelection(s);
            if cvar != null {
              SelectAfterWrite(entries, s, before);
            }
          }
          ok := true;
        }
      }
    }

    /** The line can be selected unless its gray-check CVar exists and is false. */
    function Selectable(): (r: bool)
      reads this, grayCheck
      ensures r <==> grayCheck == null || grayCheck.value
    {
      !(grayCheck != null && !grayCheck.value)
    }
  }
}
