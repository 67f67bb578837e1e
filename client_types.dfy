/** The client's data shapes (frontend/src/types/index.ts). */
module ClientTypes {
  import opened Common

  datatype User = User(id: string, email: string, name: string)

  /** A note as the client holds it. */
  datatype Note = Note(
    id: string,
    title: string,
    content: string,
    theme: Theme,
    status: Status,
    order: int,
    createdAt: string,
    updatedAt: string)

  /** `Partial<Note>`: any key may be absent, including `_id`. */
  datatype NotePatch = NotePatch(
    id: Option<string>,
    title: Option<string>,
    content: Option<string>,
    theme: Option<Theme>,
    status: Option<Status>,
    order: Option<int>,
    createdAt: Option<string>,
    updatedAt: Option<string>)

  const EmptyPatch := NotePatch(None, None, None, None, None, None, None, None)

  /** `{ ...n, ...patch }`: every key the patch carries replaces the note's. */
  function Merge(n: Note, patch: NotePatch): Note {
    Note(patch.id.GetOr(n.id), patch.title.GetOr(n.title), patch.content.GetOr(n.content),
         patch.theme.GetOr(n.theme), patch.status.GetOr(n.status), patch.order.GetOr(n.order),
         patch.createdAt.GetOr(n.createdAt), patch.updatedAt.GetOr(n.updatedAt))
  }

  datatype AuthResponse = AuthResponse(user: User, token: string)

  /** A failed request: `error.response?.data?.message`, when the server sent one. */
  datatype HttpError = HttpError(message: Option<string>)
}
