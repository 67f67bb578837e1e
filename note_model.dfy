/** The note document schema (backend/src/models/note.model.ts): the stored
    shape, the defaults Mongoose fills in, the `trim` setter on the title and
    the `required` checks run when a document is saved. */
module NoteModel {
  import opened Common
  import Text

  type NoteId = string
  type UserId = string

  /** A stored note. `createdAt` is the creation time the `timestamps` option adds. */
  datatype NoteDoc = NoteDoc(
    id: NoteId,
    user: UserId,
    title: string,
    content: string,
    theme: Theme,
    status: Status,
    order: int,
    createdAt: int)

  /** Defaults of the theme sub-document; the gradient colours have none. */
  const ThemeDefaults := Theme(Some("#ffffff"), Some("#000000"), Some(false), None, None, Some(8), Some(4))

  const DefaultStatus := Active

  /** Default of `order` when a document is built without one. */
  const DefaultOrder := 0

  /** `new Note({ ... })`: the title setter trims, absent fields take their defaults. */
  function NewNoteDoc(id: NoteId, user: UserId, title: string, content: string,
                      theme: Option<Theme>, status: Option<Status>, order: Option<int>,
                      now: int): NoteDoc
  {
    NoteDoc(id, user, Text.Trim(title), content, Overlay(ThemeDefaults, theme.GetOr(NoTheme)),
            status.GetOr(DefaultStatus), order.GetOr(DefaultOrder), now)
  }

  /** The `required` validators checked by `save()`: an empty string fails them. */
  predicate SchemaValid(d: NoteDoc) {
    d.title != "" && d.content != ""
  }

  /** A collection of notes: `_id`s are unique and every document passed validation.
      There is no constraint on `order`: the `{ user, order }` index is not unique. */
  predicate ValidCollection(docs: seq<NoteDoc>) {
    && (forall i, j :: 0 <= i < j < |docs| ==> docs[i].id != docs[j].id)
    && (forall i :: 0 <= i < |docs| ==> SchemaValid(docs[i]))
  }

  /** A document built without theme, status or order gets status active, order 0
      and the default colours, gradient flag, radius and elevation. */
  lemma NewNoteDefaults(id: NoteId, user: UserId, title: string, content: string, now: int)
    ensures var d := NewNoteDoc(id, user, title, content, None, None, None, now);
      && d.status == Active && d.order == 0
      && d.theme == Theme(Some("#ffffff"), Some("#000000"), Some(false), None, None, Some(8), Some(4))
  {
  }

  /** Supplied theme keys are stored as given; only the missing ones take defaults. */
  lemma NewNoteThemeMerge(id: NoteId, user: UserId, title: string, content: string, theme: Theme,
                          status: Option<Status>, order: Option<int>, now: int)
    ensures var d := NewNoteDoc(id, user, title, content, Some(theme), status, order, now);
      && KeyFrom(d.theme.backgroundColor, Some("#ffffff"), theme.backgroundColor)
      && KeyFrom(d.theme.textColor, Some("#000000"), theme.textColor)
      && KeyFrom(d.theme.useGradient, Some(false), theme.useGradient)
      && theme.gradientStart == d.theme.gradientStart && theme.gradientEnd == d.theme.gradientEnd
      && KeyFrom(d.theme.borderRadius, Some(8), theme.borderRadius)
      && KeyFrom(d.theme.elevation, Some(4), theme.elevation)
  {
  }

  /** A new document passes the `required` checks exactly when its title is not
      white space only and its content is not empty; the stored title is trimmed. */
  lemma NewNoteSchemaValid(id: NoteId, user: UserId, title: string, content: string,
                           theme: Option<Theme>, status: Option<Status>, order: Option<int>, now: int)
    ensures var d := NewNoteDoc(id, user, title, content, theme, status, order, now);
      && (SchemaValid(d) <==> !Text.AllSpace(title) && content != "")
      && Text.Trim(d.title) == d.title
  {
    Text.TrimEmptyIffBlank(title);
    Text.TrimIdempotent(title);
  }
}
