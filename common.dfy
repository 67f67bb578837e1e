/** Value shapes shared by the server and the client: optional values, the
    note status enumeration and the JSON-shaped note theme. */
module Common {

  datatype Option<+T> = None | Some(value: T) {
    function GetOr(default: T): T {
      if Some? then value else default
    }
  }

  datatype Result<+R, +E> = Ok(value: R) | Err(error: E)

  /** JavaScript's `message || fallback` for an optional error message:
      an absent or empty message falls back. */
  function MessageOr(message: Option<string>, fallback: string): (r: string)
    ensures message.Some? && message.value != "" ==> r == message.value
    ensures message.None? || message.value == "" ==> r == fallback
  {
    if message.Some? && message.value != "" then message.value else fallback
  }

  /** The three states a note can be in ('active' | 'archived' | 'completed'). */
  datatype Status = Active | Archived | Completed

  function StatusName(s: Status): string {
    match s
    case Active => "active"
    case Archived => "archived"
    case Completed => "completed"
  }

  /** Membership test of `isIn(['active', 'archived', 'completed'])`. */
  function ParseStatus(name: string): (r: Option<Status>)
    ensures r.Some? <==> name == "active" || name == "archived" || name == "completed"
    ensures r.Some? ==> StatusName(r.value) == name
  {
    if name == "active" then Some(Active)
    else if name == "archived" then Some(Archived)
    else if name == "completed" then Some(Completed)
    else None
  }

  lemma ParseStatusName(s: Status)
    ensures ParseStatus(StatusName(s)) == Some(s)
  {
  }

  /** A note theme as a JSON object: every key may be absent. */
  datatype Theme = Theme(
    backgroundColor: Option<string>,
    textColor: Option<string>,
    useGradient: Option<bool>,
    gradientStart: Option<string>,
    gradientEnd: Option<string>,
    borderRadius: Option<int>,
    elevation: Option<int>)

  /** The empty object `{}`. */
  const NoTheme := Theme(None, None, None, None, None, None, None)

  function Pick<T>(base: Option<T>, over: Option<T>): Option<T> {
    if over.Some? then over else base
  }

  /** Object spread `{ ...base, ...over }`: each key present in `over` wins,
      every other key comes from `base`. */
  function Overlay(base: Theme, over: Theme): Theme {
    Theme(
      Pick(base.backgroundColor, over.backgroundColor),
      Pick(base.textColor, over.textColor),
      Pick(base.useGradient, over.useGradient),
      Pick(base.gradientStart, over.gradientStart),
      Pick(base.gradientEnd, over.gradientEnd),
      Pick(base.borderRadius, over.borderRadius),
      Pick(base.elevation, over.elevation))
  }

  /** Every key `t` defines. */
  predicate Covers(t: Theme, keys: Theme) {
    && (keys.backgroundColor.Some? ==> t.backgroundColor.Some?)
    && (keys.textColor.Some? ==> t.textColor.Some?)
    && (keys.useGradient.Some? ==> t.useGradient.Some?)
    && (keys.gradientStart.Some? ==> t.gradientStart.Some?)
    && (keys.gradientEnd.Some? ==> t.gradientEnd.Some?)
    && (keys.borderRadius.Some? ==> t.borderRadius.Some?)
    && (keys.elevation.Some? ==> t.elevation.Some?)
  }

  /** One key of a spread result: the override's value when it has the key,
      the base's value otherwise. */
  predicate KeyFrom<T(==)>(result: Option<T>, base: Option<T>, over: Option<T>) {
    && (over.Some? ==> result == over)
    && (over.None? ==> result == base)
  }

  /** Spreading defaults first leaves no default key missing, takes every key
      the override sets with the override's value and every other key with the
      base's, and spreading the same override again changes nothing. */
  lemma OverlayProperties(base: Theme, over: Theme)
    ensures Covers(Overlay(base, over), base) && Covers(Overlay(base, over), over)
    ensures var r := Overlay(base, over);
      && KeyFrom(r.backgroundColor, base.backgroundColor, over.backgroundColor)
      && KeyFrom(r.textColor, base.textColor, over.textColor)
      && KeyFrom(r.useGradient, base.useGradient, over.useGradient)
      && KeyFrom(r.gradientStart, base.gradientStart, over.gradientStart)
      && KeyFrom(r.gradientEnd, base.gradientEnd, over.gradientEnd)
      && KeyFrom(r.borderRadius, base.borderRadius, over.borderRadius)
      && KeyFrom(r.elevation, base.elevation, over.elevation)
    ensures Overlay(Overlay(base, over), over) == Overlay(base, over)
    ensures Overlay(base, NoTheme) == base && Overlay(NoTheme, over) == over
  {
  }
}
