/** The colour-picker hook (frontend/src/hooks/useColorPicker.ts): an open
    flag, a text-or-background mode, and the theme the picked colours go to. */
module UseColorPicker {
  import opened Common

  /** The hook's default theme: only the two colours are set. */
  const HookDefaultTheme := Theme(Some("#ffffff"), Some("#000000"), None, None, None, None, None)

  class Hook {
    var theme: Theme
    var isOpen: bool
    var isPickingText: bool

    /** `useColorPicker(initialTheme)`; an absent argument takes the default. */
    constructor (initialTheme: Option<Theme>)
      ensures theme == initialTheme.GetOr(HookDefaultTheme)
      ensures !isOpen && !isPickingText
    {
      theme := initialTheme.GetOr(HookDefaultTheme);
      isOpen := false;
      isPickingText := false;
    }

    method OpenPicker()
      modifies this`isOpen
      ensures isOpen
    {
      isOpen := true;
    }

    /** Closing also leaves text mode. */
    method ClosePicker()
      modifies this`isOpen, this`isPickingText
      ensures !isOpen && !isPickingText
    {
      isOpen := false;
      isPickingText := false;
    }

    /** The picked colour replaces the text colour in text mode and the
        background colour otherwise; no other key changes. */
    method HandleColorChange(hex: string)
      modifies this`theme
      ensures isPickingText ==> theme == old(theme).(textColor := Some(hex))
      ensures !isPickingText ==> theme == old(theme).(backgroundColor := Some(hex))
    {
      if isPickingText {
        theme := theme.(textColor := Some(hex));
      } else {
        theme := theme.(backgroundColor := Some(hex));
      }
    }

    method ToggleTextColor()
      modifies this`isPickingText
      ensures isPickingText == !old(isPickingText)
    {
      isPickingText := !isPickingText;
    }
  }

  /** Toggling text mode twice restores every field of the hook. */
  method ToggleTwice(h: Hook)
    modifies h
    ensures h.isPickingText == old(h.isPickingText) && h.isOpen == old(h.isOpen) && h.theme == old(h.theme)
  {
    h.ToggleTextColor();
    h.ToggleTextColor();
  }

  /** A colour picked in text mode after closing and reopening lands in the
      background, because closing leaves text mode. */
  method ReopenedPickerWritesBackground(h: Hook, hex: string)
    modifies h
    ensures h.isOpen && !h.isPickingText
    ensures h.theme == old(h.theme).(backgroundColor := Some(hex))
  {
    h.ClosePicker();
    h.OpenPicker();
    h.HandleColorChange(hex);
  }
}
