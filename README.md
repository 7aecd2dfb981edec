# Option-menu items of the GZDoom menu system, in Dafny

This project models the state machines of the option-menu widgets in
`src/menu/optionmenuitems.h` and proves properties about them. Each widget
that updates its fields is a class. Its methods take the menu keys (Left,
Right, Enter, Input, Clear, Abort, …) and the keyed setters and getters
(`SetValue`, `GetValue`, `SetString`, `GetString`). Each method's contract
states the widget's new state.

- **Option lists** (`OptionList`): `FOptionMenuItemOptionBase` together with `FOptionMenuItemOption`.
  - The item stores no index of its own. Its selection is the first entry of the value list that matches the CVar.
  - A textual list matches by case-insensitive comparison of `TextValue`.
  - A numeric list (first `TextValue` empty) matches when the value is within `FLT_EPSILON`, computed over the reals.
  - Left, Right and Enter move the selection with wrap-around and write the new entry into the CVar. Left from an unknown selection (-1) goes to entry 0.
  - `SetString(OP_VALUES, name)` installs a registered list and readjusts the CVar to an entry of that list.
  - Lemmas show that writing an entry and reading the selection back finds that entry, provided no two entries are equivalent: exactly for textual lists, and for numeric lists only over the reals (see Left out).
- **Screen-resolution line** (`ResolutionLine`): three text slots kept in an array.
  - `mMaxValid` is recomputed from the slots on every `SetString`.
  - Left and Right cycle `mSelection` over `0..mMaxValid`.
  - The keyed getters and setters cover the selection, the highlight and the texts.
  - After any `SetString`, `Selectable` holds exactly when the first slot is filled in.
- **Key-binding capture** (`KeyBinding`): `FOptionMenuItemControl` and `DEnterKey`.
  - `Activate` sets `mWaiting` and opens a capture.
  - The captured key is stored in `mInput` and sent back to the line as Abort (Escape) or Input (any other key).
  - Input binds the key to the command. Abort ends the capture without binding. Clear unbinds the command.
  - The binding table is an abstract map from key to command.
- **Sliders** (`Slider`): Left and Right step the value and clamp it to `[mMin, mMax]`, over the reals. A slider reads from and writes to a CVar (possibly NULL) or a float variable.
- **Switchable static text** (`StaticText`): keyed setters for `mCurrent` and `mAltText`. The line is never selectable.

Shared pieces:
- `Cycle`: the wrap-around steps used by both cyclers, with lemmas that they are inverse and that a full cycle returns to the start.
- `NoCase`: ASCII case-insensitive comparison.
- `CVars`: CVar objects.
- `MenuKeys`: the menu keys.
- `Wrappers`: an Option type.

Interfaces the file only calls are represented by parameters or plain objects:
- The CVar registry (`FindCVar`) and the option-value registry (`OptionValues.CheckKey`): the caller passes the CVar object, or a map from list name to list.
- The base class handler `FOptionMenuItem::MenuEvent`: its answer is the parameter `baseHandled`.
- The engine's `clamp` (templates.h), `KEY_ESCAPE` (keydef.h) and the `MKEY_` values (menu.h): restated here. Those files are not part of this model.

On which selection is kept, we follow the code rather than its comment. `SetString(OP_VALUES, …)` calls `GetSelection` after it installs the new list, so it keeps the CVar's match in the new list, not the old index, and its size guard can never fire. For a CVar that matches no entry, the model resets to entry 0 as the comment intends, where the code passes -1 to `SetSelection` (see Findings and the `SetString` line under Left out).

## Model

| member | source | states |
|---|---|---|
| `Cycle.StepsStayInRange` | src/menu/optionmenuitems.h:802-821 | a step down or up from an index in 0..last stays in 0..last |
| `Cycle.StepsAreInverse` | src/menu/optionmenuitems.h:802-821 | inside 0..last, a step up undoes a step down and the other way round |
| `Cycle.StepUpTimesAdd` | src/menu/optionmenuitems.h:802-821 | a steps up followed by b steps up are a + b steps up |
| `Cycle.StepUpTimesAdds` | src/menu/optionmenuitems.h:810-815 | below the top, k steps up add k; the step from the top wraps to 0 |
| `Cycle.FullCycleUp` | src/menu/optionmenuitems.h:810-815 | last + 1 steps up bring every in-range index back to itself |
| `Cycle.StepUpReachesAll` | src/menu/optionmenuitems.h:810-815 | every index of 0..last is reached from 0 by stepping up |
| `Cycle.StepDownTimesSubtracts` | src/menu/optionmenuitems.h:804-809 | k steps down from s, with k <= s, subtract k without wrapping |
| `OptionList.FirstMatchFrom` | src/menu/optionmenuitems.h:272-291 | the result is -1 or an index at or after i; it is the first index from i whose entry matches the CVar, and -1 exactly when none does |
| `OptionList.SelectionIn` | src/menu/optionmenuitems.h:264-295 | the selection of a list is in [-1, size); it is the first entry matching the CVar (by TextValue without case, or by Value within FLT_EPSILON for a numeric list), and -1 exactly when no entry matches |
| `OptionList.SelectAfterWrite` | src/menu/optionmenuitems.h:264-314 | after SetSelection(s), GetSelection finds an index at most s whose entry is equivalent to s, and finds s itself when no two entries are equivalent |
| `OptionList.NextSelection` | src/menu/optionmenuitems.h:219-228 | for a list of n > 0 entries and any selection in [-1, n), the new selection is in [0, n) |
| `OptionList.NextSelectionCases` | src/menu/optionmenuitems.h:220-228 | Left maps -1 to 0, 0 to n-1, and otherwise decrements; Right and Enter increment and wrap n-1 to 0 |
| `OptionList.LeftUndoesRight` | src/menu/optionmenuitems.h:220-228 | for a known selection, Left after Right and Right after Left give the selection back |
| `OptionList.Readjust` | src/menu/optionmenuitems.h:172-174 | the readjusted selection is in [0, n); a selection inside the list is kept and any other becomes 0 |
| `OptionList.ReadjustAsWrittenKeepsUnknown` | src/menu/optionmenuitems.h:172-174 | as written, the size guard never changes GetSelection's result, and a CVar that matches no entry of a non-empty list yields the index -1 |
| `OptionList.ReadjustAsWrittenCounterexample` | src/menu/optionmenuitems.h:172-174 | for the list on/off and a CVar holding "auto", the index passed to SetSelection as written is -1 |
| `OptionList.OptionItem.constructor` | src/menu/optionmenuitems.h:147-162 | the value list is the registry's list of that name, or absent; the CVar and gray-check are the ones given |
| `OptionList.OptionItem.GetSelection` | src/menu/optionmenuitems.h:264-295 | returns the item's selection: -1 without a list, a CVar, entries or a match, otherwise the first matching index |
| `OptionList.OptionItem.SetSelection` | src/menu/optionmenuitems.h:297-314 | with a list, a CVar and entries, stores the entry's TextValue for a textual list or its Value for a numeric one, and nothing else; otherwise changes nothing |
| `OptionList.OptionItem.MenuEvent` | src/menu/optionmenuitems.h:215-237 | on a non-empty list, Left/Right/Enter store entry NextSelection of the old selection, answers true, and the selection read back is in [0, n) (and is exactly that entry when no two entries are equivalent); on an empty list every key answers true with no change; other keys answer the base handler's value with no change |
| `OptionList.OptionItem.SetString` | src/menu/optionmenuitems.h:164-179 | OP_VALUES with a registered name installs that list, stores the readjusted selection in the CVar and answers true; the selection read back then lies in the new list and equals the CVar's old match when entries are distinct; any other call answers false and changes nothing |
| `OptionList.OptionItem.Selectable` | src/menu/optionmenuitems.h:239-242 | selectable exactly when there is no gray-check CVar or it is true |
| `KeyBinding.Unbound` | src/menu/optionmenuitems.h:433-437 | the table after unbinding has exactly the entries whose command differs, each unchanged |
| `KeyBinding.ClearThenBindLeavesOneKey` | src/menu/optionmenuitems.h:427-437 | Clear followed by Input with key k leaves the command bound to k and to no other key, and keeps every other command's binding that k does not overwrite |
| `KeyBinding.KeyBindings.SetBind` | src/menu/optionmenuitems.h:430 | the key is bound to the command; every other entry stays |
| `KeyBinding.KeyBindings.UnbindACommand` | src/menu/optionmenuitems.h:435 | the table becomes the table with the command unbound |
| `KeyBinding.ControlItem.constructor` | src/menu/optionmenuitems.h:394-399 | a new line is not waiting and keeps its command and table |
| `KeyBinding.ControlItem.MenuEvent` | src/menu/optionmenuitems.h:425-444 | Input clears mWaiting and binds mInput to the command; Clear unbinds the command and keeps mWaiting; Abort clears mWaiting and binds nothing; only these three keys answer true |
| `KeyBinding.ControlItem.Activate` | src/menu/optionmenuitems.h:446-452 | sets mWaiting, answers true, and opens a fresh capture tied to this line |
| `KeyBinding.KeyCapture.constructor` | src/menu/optionmenuitems.h:331-337 | a new capture is open and writes into the given line |
| `KeyBinding.KeyCapture.Responder` | src/menu/optionmenuitems.h:357-369 | a key-down stores the key in mInput, closes the capture, ends the wait and binds the key unless it is Escape, answering true; other events answer false and change nothing |
| `KeyBinding.RebindByKey` | src/menu/optionmenuitems.h:357-452 | activating a line and pressing a key binds that key to its command (Escape binds nothing) and leaves the line not waiting |
| `Slider.Clamp` | src/menu/optionmenuitems.h:589 | with min <= max the result lies in [min, max]; a value inside is unchanged; at or below min gives min; otherwise at or above max gives max |
| `Slider.ClampIdempotent` | src/menu/optionmenuitems.h:589 | clamping twice is clamping once |
| `Slider.ClampMonotonic` | src/menu/optionmenuitems.h:589 | clamping keeps the order of values when min <= max |
| `Slider.StepsMoveTheRightWay` | src/menu/optionmenuitems.h:577-589 | from a value in range, Left never raises it and Right never lowers it |
| `Slider.SliderItem.constructor` | src/menu/optionmenuitems.h:552-559 | the bounds, step and value store are the ones given |
| `Slider.SliderItem.GetValue` | src/menu/optionmenuitems.h:611-621 | the CVar's float value, 0 without a CVar, or the variable's value for a pointer slider (651-654) |
| `Slider.SliderItem.SetValue` | src/menu/optionmenuitems.h:623-631 | a CVar or variable slider reads back the value written; a slider without a CVar ignores it (656-659 for the variable); the model's separate text field of the CVar is left as it was (see the CVar line under Left out) |
| `Slider.SliderItem.MenuEvent` | src/menu/optionmenuitems.h:573-592 | Left sets clamp(v - step), Right sets clamp(v + step), so the value lies in [min, max] when min <= max; both answer true; other keys answer the base handler's value and change nothing |
| `StaticText.StaticTextSwitchable.constructor` | src/menu/optionmenuitems.h:497-503 | a new line shows its main text (mCurrent is 0) and holds the given alternative text |
| `StaticText.StaticTextSwitchable.SetValue` | src/menu/optionmenuitems.h:514-522 | index 0 sets mCurrent and answers true; any other index answers false and changes nothing |
| `StaticText.StaticTextSwitchable.SetString` | src/menu/optionmenuitems.h:524-532 | index 0 sets mAltText and answers true; any other index answers false and changes nothing |
| `StaticText.StaticTextSwitchable.Selectable` | src/menu/optionmenuitems.h:534-537 | never selectable |
| `ResolutionLine.MaxValidOf` | src/menu/optionmenuitems.h:782-785 | the result is in [-1, 2]; all slots up to it are filled in and the slot after it, if any, is empty |
| `ResolutionLine.Truncate` | src/menu/optionmenuitems.h:795-796 | the copy is a prefix of the text, of length len - 1 or the whole text, whichever is shorter |
| `ResolutionLine.ScreenResolutionLine.constructor` | src/menu/optionmenuitems.h:745-750 | selection 0, highlight -1, three empty texts, and mMaxValid as given (the source leaves it unset) |
| `ResolutionLine.ScreenResolutionLine.SetValue` | src/menu/optionmenuitems.h:752-765 | SRL_SELECTION sets the selection, SRL_HIGHLIGHT sets the highlight, both answer true; other indices answer false and change nothing |
| `ResolutionLine.ScreenResolutionLine.GetValue` | src/menu/optionmenuitems.h:767-775 | yields the selection for SRL_SELECTION and nothing for any other index |
| `ResolutionLine.ScreenResolutionLine.SetString` | src/menu/optionmenuitems.h:777-789 | an index in SRL_INDEX..SRL_INDEX+2 stores the text in its slot, sets mMaxValid from the slots and answers true; other indices answer false and change nothing |
| `ResolutionLine.ScreenResolutionLine.GetString` | src/menu/optionmenuitems.h:791-800 | an index in range yields its slot's text cut to the buffer; other indices yield nothing |
| `ResolutionLine.ScreenResolutionLine.MenuEvent` | src/menu/optionmenuitems.h:802-821 | Left decrements and wraps below 0 to mMaxValid; Right increments and wraps above mMaxValid to 0; both answer true; a selection inside 0..mMaxValid stays inside; other keys answer the base handler's value with no change |
| `ResolutionLine.ScreenResolutionLine.Selectable` | src/menu/optionmenuitems.h:847-850 | selectable exactly when mMaxValid >= 0 |
| `ResolutionLine.ScreenResolutionLine.SelectableIffFirstText` | src/menu/optionmenuitems.h:777-789 | once mMaxValid agrees with the texts, the line is selectable exactly when its first text is filled in |

## Left out

- Drawing: every `Draw`/`Drawer`, `drawLabel`, `screen->DrawText`, `screen->Clear`, `M_DrawSlider` and `M_DrawConText`. So are the fields used only for drawing: `mCenter`, `mShowValue`, `mColor`, and the displayed `Text` of an option entry, which is kept but never read.
- Engine side effects: `S_Sound`, `M_SetMenu`, `M_ActivateMenu`, `M_StartMessage`, `C_DoCommand`, `M_SetVideoMode` and `StartPickerMenu`. This leaves out `FOptionMenuItemSubmenu`, `FOptionMenuItemCommand` and `FOptionMenuItemSafeCommand`, and `Activate` of the resolution line. All of them only trigger such effects.
- `FOptionMenuItemColorPicker` and the `am_restorecolors` command: they reset CVars through the registry and walk the current menu by virtual dispatch.
- `FOptionMenuItemStaticText`: it only draws, and is never selectable.
- The CVar registry.
  - `FindCVar` and the bool-type check on the gray-check CVar: the caller passes the objects.
  - `OptionValues.CheckKey`: a map from list name to list.
  - The conversion a CVar makes between its string and float representations: the two are independent fields here. So when a slider or a numeric option list writes the float value, the model leaves the text field as it was, while the engine would report the new value as text too.
- IEEE floats. The `(float)` narrowing in `SetSelection` and in the slider setters, and double arithmetic, are modelled over the reals. The `FLT_EPSILON` comparison is kept, exactly, over the reals. Because of the narrowing, the write-then-read round trip of a numeric list can fail in the engine: entry 10.1 is stored as the float 10.100000381…, which differs from 10.1 by more than FLT_EPSILON, so the line then shows "Unknown".
- `DEnterKey::SetMenuMessage` and `Close`, and the global `menuactive`: the capture's `open` flag stands for them.
- The parent menu forwarding the capture's event to the line under the cursor: the capture sends it straight to its own line.
- The internals of `FKeyBindings` (c_bind.cpp is not part of this model). Here `SetBind` overwrites one key's entry, and `UnbindACommand` removes every entry equal to the command. The key-range check and case-insensitive comparison that the engine may apply are not modelled.
- `OptionList.OptionItem.MenuEvent`: requires a non-NULL value list, because the source dereferences it without a check.
- `OptionList.OptionItem.SetString`: uses the corrected readjustment (see Findings). The as-written code passes index -1 to `SetSelection`, which is an out-of-bounds access that cannot be modelled.
- `ResolutionLine.ScreenResolutionLine.GetString`: requires a buffer of at least one character when the index is in range. With `len <= 0` the source passes a huge count to `strncpy` (line 795) and writes `s[-1]` (line 796), which is undefined behaviour and is not modelled.
- C++ `int` width: indices, keys and `mSelection` are unbounded integers. The signed overflow of `++mSelection` from `INT_MAX` (line 812) and of `--mSelection` from `INT_MIN` (line 806) is undefined behaviour in the source and is not modelled; the model steps such a selection to 0 or to `mMaxValid`.
- `ResolutionLine.ScreenResolutionLine.constructor` and `KeyBinding.ControlItem.constructor`: the source leaves `mMaxValid` and `mInput` uninitialised. Their initial values are constructor arguments here.

## Findings

| source | as written | input that shows it | evidently intended | confidence | as-written member | corrected member |
|---|---|---|---|---|---|---|
| src/menu/optionmenuitems.h:171-174 | the selection is read with `GetSelection()` after the new list is installed, and only `s >= size` is reset to 0; `GetSelection` never returns an index that large, so a CVar with no match in the new list leaves `s == -1`, and `SetSelection(-1)` reads `mValues[-1]` | a non-NULL CVar holding "auto" and a new textual list on/off | readjust the CVar to entry 0 whenever its value is not in the new list (s < 0 or s >= size) | not executed; high | `OptionList.ReadjustAsWrittenCounterexample` | `OptionList.Readjust` |
