/** The `useNotes` hook (frontend/src/hooks/useNotes.ts): a fetch on mount and
    three local list updates that do not contact the server. */
module UseNotes {
  import opened Common
  import opened ClientTypes
  import opened NoteLists

  /** `{ _id: generatedId, ...note } as Note`: the patch's own `_id`, when it has
      one, wins over the generated one. Keys the patch lacks are filled with empty
      values here. */
  function LocalNote(generatedId: string, patch: NotePatch): (n: Note)
    ensures n.id == patch.id.GetOr(generatedId)
  {
    Merge(Note(generatedId, "", "", NoTheme, Active, 0, "", ""), patch)
  }

  class Hook {
    var notes: seq<Note>
    var isLoading: bool
    var error: Option<HttpError>

    constructor ()
      ensures notes == [] && isLoading && error == None
    {
      notes := [];
      isLoading := true;
      error := None;
    }

    /** `fetchNotes`: stores the response sorted by rank, or records the error
        (a later success does not clear it); loading ends either way. */
    method FetchNotes(response: Result<seq<Note>, HttpError>)
      modifies this
      ensures !isLoading
      ensures response.Ok? ==> notes == SortByOrder(response.value) && error == old(error)
      ensures response.Err? ==> notes == old(notes) && error == Some(response.error)
    {
      isLoading := true;
      if response.Ok? {
        notes := SortByOrder(response.value);
      } else {
        error := Some(response.error);
      }
      isLoading := false;
    }

    /** `addNote`: appends one note built from the patch; `generatedId` stands for
        `Date.now().toString()`. */
    method AddNote(patch: NotePatch, generatedId: string)
      modifies this
      ensures notes == old(notes) + [LocalNote(generatedId, patch)]
      ensures isLoading == old(isLoading) && error == old(error)
    {
      var newNote := LocalNote(generatedId, patch);
      notes := notes + [newNote];
    }

    /** `updateNote`: merges the patch into the entries with that id. */
    method UpdateNote(id: string, patch: NotePatch)
      modifies this
      ensures notes == MergeById(old(notes), id, patch)
      ensures isLoading == old(isLoading) && error == old(error)
    {
      notes := MergeById(notes, id, patch);
    }

    /** `deleteNote`: removes the entries with that id. */
    method DeleteNote(id: string)
      modifies this
      ensures notes == RemoveById(old(notes), id)
      ensures isLoading == old(isLoading) && error == old(error)
    {
      notes := RemoveById(notes, id);
    }
  }
}
