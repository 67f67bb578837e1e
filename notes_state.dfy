/** The state-based notes context (frontend/src/contexts/NotesContext.tsx):
    `notes` and `isLoading` updated around awaited requests. A request's outcome
    is a parameter; a failure propagates to the caller unchanged. */
module NotesContextState {
  import opened Common
  import opened ClientTypes
  import opened NoteLists

  class Provider {
    var notes: seq<Note>
    var isLoading: bool

    constructor ()
      ensures notes == [] && isLoading
    {
      notes := [];
      isLoading := true;
    }

    /** `fetchNotes`: on success the notes become the response sorted by rank; a
        failure is logged and swallowed; loading ends either way. */
    method FetchNotes(response: Result<seq<Note>, HttpError>)
      modifies this
      ensures !isLoading
      ensures response.Ok? ==> notes == SortByOrder(response.value)
      ensures response.Err? ==> notes == old(notes)
    {
      isLoading := true;
      if response.Ok? {
        notes := SortByOrder(response.value);
      }
      isLoading := false;
    }

    /** `createNote`: appends the server's note. */
    method CreateNote(response: Result<Note, HttpError>) returns (outcome: Result<Note, HttpError>)
      modifies this
      ensures outcome == response && isLoading == old(isLoading)
      ensures notes == if response.Ok? then old(notes) + [response.value] else old(notes)
    {
      if response.Ok? {
        notes := notes + [response.value];
      }
      outcome := response;
    }

    /** `updateNote`: once the PATCH resolves, merges the sent fields into the
        entries with that id. */
    method UpdateNote(id: string, patch: NotePatch, response: Result<(), HttpError>)
      returns (outcome: Result<(), HttpError>)
      modifies this
      ensures outcome == response && isLoading == old(isLoading)
      ensures notes == if response.Ok? then MergeById(old(notes), id, patch) else old(notes)
    {
      if response.Ok? {
        notes := MergeById(notes, id, patch);
      }
      outcome := response;
    }

    /** `deleteNote`: once the DELETE resolves, removes the entries with that id. */
    method DeleteNote(id: string, response: Result<(), HttpError>) returns (outcome: Result<(), HttpError>)
      modifies this
      ensures outcome == response && isLoading == old(isLoading)
      ensures notes == if response.Ok? then RemoveById(old(notes), id) else old(notes)
    {
      if response.Ok? {
        notes := RemoveById(notes, id);
      }
      outcome := response;
    }
  }
}
