/** The theme dialog (frontend/src/components/ColorPicker.tsx): a local copy
    of the theme being edited, which colour the picker writes to, and the
    save/cancel handlers. */
module ColorPicker {
  import opened Common
  import opened ClientTypes

  /** The dialog's default theme, laid under the theme prop. */
  const PickerDefaultTheme := Theme(Some("#ffffff"), Some("#000000"), Some(false), None, None, Some(16), Some(4))

  /** `isPickingGradient`: false, 'start' or 'end'. */
  datatype GradientMode = NotPicking | StartColor | EndColor

  /** JavaScript `a || b` on an optional string: an absent or empty value
      falls through to `b`. */
  function OrElse(a: Option<string>, b: Option<string>): (r: Option<string>)
    ensures r == a || r == b
    ensures a.Some? && a.value != "" ==> r == a
  {
    if a.Some? && a.value != "" then a else b
  }

  /** The colour the picker displays in the current mode. */
  function ShownColor(t: Theme, pickingText: bool, mode: GradientMode): Option<string> {
    if pickingText then t.textColor
    else match mode
      case StartColor => OrElse(t.gradientStart, t.backgroundColor)
      case EndColor => OrElse(t.gradientEnd, Some("#ffffff"))
      case NotPicking => t.backgroundColor
  }

  /** The theme after a picked colour is written: exactly one colour key
      changes, chosen by text mode first, then gradient mode, then background;
      the picker then shows the colour just written. */
  function Recolored(t: Theme, pickingText: bool, mode: GradientMode, color: string): (r: Theme)
    ensures color != "" ==> ShownColor(r, pickingText, mode) == Some(color)
    ensures r.useGradient == t.useGradient && r.borderRadius == t.borderRadius && r.elevation == t.elevation
    ensures pickingText ==> r == t.(textColor := Some(color))
    ensures !pickingText && mode == StartColor ==> r == t.(gradientStart := Some(color))
    ensures !pickingText && mode == EndColor ==> r == t.(gradientEnd := Some(color))
    ensures !pickingText && mode == NotPicking ==> r == t.(backgroundColor := Some(color))
  {
    if pickingText then t.(textColor := Some(color))
    else match mode
      case StartColor => t.(gradientStart := Some(color))
      case EndColor => t.(gradientEnd := Some(color))
      case NotPicking => t.(backgroundColor := Some(color))
  }

  /** The gradient switch: an absent flag counts as off. */
  function GradientToggled(t: Theme): (r: Theme)
    ensures r.useGradient == Some(t.useGradient != Some(true))
    ensures r.(useGradient := t.useGradient) == t
  {
    t.(useGradient := Some(t.useGradient != Some(true)))
  }

  /** Switching twice restores a set flag; an absent flag ends up off. */
  lemma GradientToggleTwice(t: Theme)
    ensures t.useGradient.Some? ==> GradientToggled(GradientToggled(t)) == t
    ensures t.useGradient.None? ==> GradientToggled(GradientToggled(t)) == t.(useGradient := Some(false))
  {
    match t.useGradient
    case Some(b) =>
      assert GradientToggled(t).useGradient == Some(!b);
      assert GradientToggled(GradientToggled(t)).useGradient == Some(b);
    case None =>
  }

  class Dialog {
    var themeProp: Theme
    var localTheme: Theme
    var isPickingText: bool
    var isPickingGradient: GradientMode
    var closeRequested: bool

    /** At most one picking mode is active. */
    ghost predicate Valid()
      reads this
    {
      !(isPickingText && isPickingGradient != NotPicking)
    }

    constructor (theme: Theme)
      ensures Valid()
      ensures themeProp == theme && localTheme == Overlay(PickerDefaultTheme, theme)
      ensures !isPickingText && isPickingGradient == NotPicking && !closeRequested
    {
      themeProp := theme;
      localTheme := Overlay(PickerDefaultTheme, theme);
      isPickingText := false;
      isPickingGradient := NotPicking;
      closeRequested := false;
    }

    /** The effect on a new theme prop: the local copy is rebuilt from it. */
    method ThemePropChanged(theme: Theme)
      modifies this`themeProp, this`localTheme
      ensures themeProp == theme && localTheme == Overlay(PickerDefaultTheme, theme)
    {
      themeProp := theme;
      localTheme := Overlay(PickerDefaultTheme, theme);
    }

    method HandleColorChange(color: string)
      modifies this`localTheme
      ensures localTheme == Recolored(old(localTheme), isPickingText, isPickingGradient, color)
    {
      if isPickingText {
        localTheme := localTheme.(textColor := Some(color));
      } else if isPickingGradient != NotPicking {
        if isPickingGradient == StartColor {
          localTheme := localTheme.(gradientStart := Some(color));
        } else {
          localTheme := localTheme.(gradientEnd := Some(color));
        }
      } else {
        localTheme := localTheme.(backgroundColor := Some(color));
      }
    }

    /** The Text Color button: toggles text mode and leaves gradient mode. */
    method TextButton()
      requires Valid()
      modifies this`isPickingText, this`isPickingGradient
      ensures Valid()
      ensures isPickingText == !old(isPickingText) && isPickingGradient == NotPicking
    {
      isPickingText := !isPickingText;
      isPickingGradient := NotPicking;
    }

    /** The Start Color button: toggles start mode and leaves text mode. */
    method StartButton()
      requires Valid()
      modifies this`isPickingText, this`isPickingGradient
      ensures Valid()
      ensures !isPickingText
      ensures isPickingGradient == if old(isPickingGradient) == StartColor then NotPicking else StartColor
    {
      isPickingGradient := if isPickingGradient == StartColor then NotPicking else StartColor;
      isPickingText := false;
    }

    /** The End Color button: toggles end mode and leaves text mode. */
    method EndButton()
      requires Valid()
      modifies this`isPickingText, this`isPickingGradient
      ensures Valid()
      ensures !isPickingText
      ensures isPickingGradient == if old(isPickingGradient) == EndColor then NotPicking else EndColor
    {
      isPickingGradient := if isPickingGradient == EndColor then NotPicking else EndColor;
      isPickingText := false;
    }

    method HandleGradientToggle()
      modifies this`localTheme
      ensures localTheme == GradientToggled(old(localTheme))
    {
      localTheme := localTheme.(useGradient := Some(localTheme.useGradient != Some(true)));
    }

    method HandleBorderRadiusChange(value: int)
      modifies this`localTheme
      ensures localTheme == old(localTheme).(borderRadius := Some(value))
    {
      localTheme := localTheme.(borderRadius := Some(value));
    }

    method HandleElevationChange(value: int)
      modifies this`localTheme
      ensures localTheme == old(localTheme).(elevation := Some(value))
    {
      localTheme := localTheme.(elevation := Some(value));
    }

    /** `handleCancel`: the local copy becomes the raw prop, without the
        defaults laid under it, and the dialog asks to close. */
    method HandleCancel()
      modifies this`localTheme, this`closeRequested
      ensures localTheme == themeProp && closeRequested
    {
      localTheme := themeProp;
      closeRequested := true;
    }

    /** `handleSave`: sends the local copy; the dialog asks to close only once
        the change has been stored. */
    method HandleSave(response: Result<(), HttpError>) returns (sent: Theme)
      modifies this`closeRequested
      ensures sent == localTheme
      ensures closeRequested == (response.Ok? || old(closeRequested))
    {
      sent := localTheme;
      if response.Ok? {
        closeRequested := true;
      }
    }
  }

  /** A cancel right after opening drops the defaults: a prop with missing keys
      leaves the local copy with those keys missing, unlike when it opened. */
  method CancelDropsDefaults() returns (openRadius: Option<int>, cancelledRadius: Option<int>)
    ensures openRadius == Some(16) && cancelledRadius.None?
  {
    var prop := Theme(Some("#123456"), None, None, None, None, None, None);
    var d := new Dialog(prop);
    openRadius := d.localTheme.borderRadius;
    d.HandleCancel();
    cancelledRadius := d.localTheme.borderRadius;
  }
}
