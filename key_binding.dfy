/**
 * Key-binding lines (FOptionMenuItemControl) and the key-capture screen they open
 * (DEnterKey). Activating the line sets mWaiting and opens the capture; the next
 * key pressed is written into the line's mInput and sent back to the line as Input,
 * or as Abort when it is Escape; Input binds the captured key to the line's command.
 */
module KeyBinding {
  import opened MenuKeys

  /** KEY_ESCAPE, the scan code of the Escape key. */
  const KeyEscape: int := 0x01

  /** The part of an input event the capture looks at: ev->type and, for a key press, ev->data1. */
  datatype InputEvent = KeyDown(key: int) | OtherEvent

  /** The commands bound to keys, with entries that are unbound left out. */
  function Unbound(binds: map<int, string>, command: string): (r: map<int, string>)
    ensures forall k :: k in r <==> k in binds && binds[k] != command
    ensures forall k :: k in r ==> r[k] == binds[k]
  {
    map k | k in binds && binds[k] != command :: binds[k]
  }

  /**
   * Clear followed by a captured key k: the command ends up bound to k and to no other
   * key, and every binding of another command is kept (except one that k overwrites).
   */
  lemma ClearThenBindLeavesOneKey(binds: map<int, string>, command: string, k: int)
    ensures var after := Unbound(binds, command)[k := command];
      forall j :: j in after && after[j] == command <==> j == k
    ensures var after := Unbound(binds, command)[k := command];
      forall j :: j in binds && binds[j] != command && j != k ==> j in after && after[j] == binds[j]
  {
  }

  /** A table of key bindings (FKeyBindings), shared by all lines that edit it. */
  class KeyBindings {
    var binds: map<int, string>

    constructor ()
      ensures binds == map[]
    {
      binds := map[];
    }

    method SetBind(key: int, command: string)
      modifies this
      ensures binds == old(binds)[key := command]
    {
      binds := binds[key := command];
    }

    method UnbindACommand(command: string)
      modifies this
      ensures binds == Unbound(old(binds), command)
    {
      binds := Unbound(binds, command);
    }
  }

  class ControlItem {
    /** mAction, the command to bind. */
    const action: string
    /** mBindings. */
    const bindings: KeyBindings
    /** mInput, the most recently captured key. */
    var input: int
    /** mWaiting: a key capture is in progress. */
    var waiting: bool

    /** mInput is left uninitialised by the source; its first value is a parameter here. */
    constructor (action: string, bindings: KeyBindings, initialInput: int)
      ensures this.action == action && this.bindings == bindings
      ensures input == initialInput && !waiting
    {
      this.action := action;
      this.bindings := bindings;
      input := initialInput;
      waiting := false;
    }

    /**
     * Input ends the capture and binds the captured key to the command; Clear unbinds
     * the command and leaves the capture state alone; Abort ends the capture without
     * binding; any other key is refused.
     */
    method MenuEvent(key: MenuKey) returns (handled: bool)
      modifies this, bindings
      ensures handled <==> key.Input? || key.Clear? || key.Abort?
      ensures input == old(input)
      ensures waiting == if key.Input? || key.Abort? then false else old(waiting)
      ensures bindings.binds ==
        if key.Input? then old(bindings.binds)[old(input) := action]
        else if key.Clear? then Unbound(old(bindings.binds), action)
        else old(bindings.binds)
    {
      if key == Input {
        waiting := false;
        bindings.SetBind(input, action);
        return true;
      } else if key == Clear {
        bindings.UnbindACommand(action);
        return true;
      } else if key == Abort {
        waiting := false;
        return true;
      }
      return false;
    }

    /** Starts waiting for a key and opens a capture that writes into this line. */
    method Activate() returns (ok: bool, capture: KeyCapture)
      modifies this
      ensures ok && waiting && input == old(input)
      ensures fresh(capture) && capture.item == this && capture.open
      ensures bindings.binds == old(bindings.binds)
    {
      waiting := true;
      capture := new KeyCapture(this);
      ok := true;
    }
  }

  /**
   * DEnterKey: the screen that captures one key for a control line. `open` stands for
   * the screen being active with the menu in its key-waiting state.
   */
  class KeyCapture {
    /** The line whose mInput pKey points to, and to which the parent menu forwards events. */
    const item: ControlItem
    var open: bool

    constructor (item: ControlItem)
      ensures this.item == item && open
    {
      this.item := item;
      open := true;
    }

    /**
     * A key press is stored in the line, closes the capture and is reported to the line
     * as Abort (Escape) or Input (any other key); other events are not taken.
     */
    method Responder(ev: InputEvent) returns (taken: bool)
      modifies this, item, item.bindings
      ensures taken <==> ev.KeyDown?
      ensures !ev.KeyDown? ==> open == old(open) && item.input == old(item.input)
      ensures !ev.KeyDown? ==> item.waiting == old(item.waiting) && item.bindings.binds == old(item.bindings.binds)
      ensures ev.KeyDown? ==> !open && item.input == ev.key && !item.waiting
      ensures ev.KeyDown? && ev.key == KeyEscape ==> item.bindings.binds == old(item.bindings.binds)
      ensures ev.KeyDown? && ev.key != KeyEscape ==>
        item.bindings.binds == old(item.bindings.binds)[ev.key := item.action]
    {
      if ev.KeyDown? {
        item.input := ev.key;
        open := false;
        var _ := item.MenuEvent(if ev.key == KeyEscape then Abort else Input);
        return true;
      }
      return false;
    }
  }

  /**
   * A whole capture: activating a line and pressing key k binds k to the line's
   * command, unless k is Escape, and leaves the line no longer waiting.
   */
  method RebindByKey(item: ControlItem, k: int)
    modifies item, item.bindings
    ensures !item.waiting && item.input == k
    ensures k == KeyEscape ==> item.bindings.binds == old(item.bindings.binds)
    ensures k != KeyEscape ==> item.bindings.binds == old(item.bindings.binds)[k := item.action]
  {
    var ok, capture := item.Activate();
    var taken := capture.Responder(KeyDown(k));
  }
}
