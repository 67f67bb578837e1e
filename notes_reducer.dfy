/** The reducer-based notes context (frontend/src/context/NotesContext.tsx):
    `notesReducer` over its seven actions, and the provider's request functions,
    which dispatch only once the request has succeeded. */
module NotesContextReducer {
  import opened Common
  import opened ClientTypes
  import opened NoteLists

  datatype NotesState = NotesState(notes: seq<Note>, isLoading: bool, error: Option<string>)

  const InitialState := NotesState([], false, None)

  datatype NotesAction =
    | FetchStart
    | FetchSuccess(notes: seq<Note>)
    | FetchFailure(message: string)
    | CreateSuccess(note: Note)
    | UpdateSuccess(note: Note)
    | DeleteSuccess(id: string)
    | ReorderSuccess(note: Note)

  /** `notesReducer`. */
  function Reduce(state: NotesState, action: NotesAction): NotesState {
    match action
    case FetchStart => state.(isLoading := true, error := None)
    case FetchSuccess(notes) => state.(notes := notes, isLoading := false, error := None)
    case FetchFailure(message) => state.(isLoading := false, error := Some(message))
    case CreateSuccess(note) => state.(notes := state.notes + [note])
    case UpdateSuccess(note) => state.(notes := ReplaceById(state.notes, note))
    case DeleteSuccess(id) => state.(notes := RemoveById(state.notes, id))
    case ReorderSuccess(note) => state.(notes := ReplaceById(state.notes, note))
  }

  /** The fetch actions drive the loading flag and the error, and only a
      successful fetch replaces the list. */
  lemma ReduceFetch(state: NotesState, notes: seq<Note>, message: string)
    ensures Reduce(state, FetchStart) == NotesState(state.notes, true, None)
    ensures Reduce(state, FetchSuccess(notes)) == NotesState(notes, false, None)
    ensures Reduce(state, FetchFailure(message)) == NotesState(state.notes, false, Some(message))
  {
  }

  /** A created note is appended: one longer, every earlier entry in place. */
  lemma ReduceCreateAppends(state: NotesState, note: Note)
    ensures var r := Reduce(state, CreateSuccess(note)).notes;
      |r| == |state.notes| + 1 && r[..|state.notes|] == state.notes && r[|state.notes|] == note
  {
  }

  /** An update or a reorder keeps every position and replaces exactly the entries
      carrying the payload's id; the flags are untouched. */
  lemma ReduceReplaces(state: NotesState, note: Note)
    ensures Reduce(state, ReorderSuccess(note)) == Reduce(state, UpdateSuccess(note))
    ensures var r := Reduce(state, ReorderSuccess(note));
      && r.isLoading == state.isLoading && r.error == state.error
      && |r.notes| == |state.notes| && Ids(r.notes) == Ids(state.notes)
      && (forall i :: 0 <= i < |r.notes| ==> r.notes[i] == if state.notes[i].id == note.id then note else state.notes[i])
  {
    ReplaceByIdSpec(state.notes, note);
  }

  /** A delete drops every entry with the id and keeps the others in order. */
  lemma ReduceDelete(state: NotesState, id: string)
    ensures var r := Reduce(state, DeleteSuccess(id)).notes;
      && (forall i :: 0 <= i < |r| ==> r[i].id != id)
      && (forall n: Note :: n.id != id ==> multiset(r)[n] == multiset(state.notes)[n])
  {
    RemoveByIdSpec(state.notes, id);
  }

  function Ranked(id: string, order: int): Note {
    Note(id, id, id, NoTheme, Active, order, "", "")
  }

  /** A reorder neither re-sorts the list nor shifts the other ranks: with A at
      rank 0 and B at rank 1, the server's move of A to rank 1 returns A with rank
      1 (and moves B to rank 0 on the server), but the client list becomes
      [A:1, B:1], two notes with one rank, still in the old order. */
  lemma ReorderLeavesStaleRanks()
    ensures Reduce(NotesState([Ranked("A", 0), Ranked("B", 1)], false, None), ReorderSuccess(Ranked("A", 1))).notes
         == [Ranked("A", 1), Ranked("B", 1)]
  {
    var r := Reduce(NotesState([Ranked("A", 0), Ranked("B", 1)], false, None), ReorderSuccess(Ranked("A", 1))).notes;
    assert r[0] == Ranked("A", 1) && r[1] == Ranked("B", 1);
  }

  /** The provider: the reducer's state and the actions dispatched so far. A
      request's outcome is a parameter; a failure is returned as the thrown message. */
  class Provider {
    var state: NotesState
    var dispatched: seq<NotesAction>

    constructor ()
      ensures state == InitialState && dispatched == []
    {
      state := InitialState;
      dispatched := [];
    }

    method Dispatch(action: NotesAction)
      modifies this
      ensures state == Reduce(old(state), action) && dispatched == old(dispatched) + [action]
    {
      state := Reduce(state, action);
      dispatched := dispatched + [action];
    }

    /** `fetchNotes`: FETCH_START, then FETCH_SUCCESS or FETCH_FAILURE and a throw. */
    method FetchNotes(response: Result<seq<Note>, HttpError>) returns (outcome: Result<(), string>)
      modifies this
      ensures response.Ok? ==>
        outcome == Ok(()) && dispatched == old(dispatched) + [FetchStart, FetchSuccess(response.value)]
        && state == NotesState(response.value, false, None)
      ensures response.Err? ==>
        var message := MessageOr(response.error.message, "Failed to fetch notes");
        outcome == Err(message) && dispatched == old(dispatched) + [FetchStart, FetchFailure(message)]
        && state == NotesState(old(state).notes, false, Some(message))
    {
      Dispatch(FetchStart);
      if response.Ok? {
        Dispatch(FetchSuccess(response.value));
        outcome := Ok(());
      } else {
        var message := MessageOr(response.error.message, "Failed to fetch notes");
        Dispatch(FetchFailure(message));
        outcome := Err(message);
      }
    }

    /** `createNote`: appends the server's note once the POST succeeds. */
    method CreateNote(response: Result<Note, HttpError>) returns (outcome: Result<Note, string>)
      modifies this
      ensures response.Ok? ==>
        outcome == Ok(response.value) && dispatched == old(dispatched) + [CreateSuccess(response.value)]
        && state == old(state).(notes := old(state).notes + [response.value])
      ensures response.Err? ==>
        outcome == Err(MessageOr(response.error.message, "Failed to create note"))
        && state == old(state) && dispatched == old(dispatched)
    {
      if response.Ok? {
        Dispatch(CreateSuccess(response.value));
        outcome := Ok(response.value);
      } else {
        outcome := Err(MessageOr(response.error.message, "Failed to create note"));
      }
    }

    /** `updateNote`: replaces the entry with the server's note once the PATCH succeeds. */
    method UpdateNote(id: string, response: Result<Note, HttpError>) returns (outcome: Result<Note, string>)
      modifies this
      ensures response.Ok? ==>
        outcome == Ok(response.value) && dispatched == old(dispatched) + [UpdateSuccess(response.value)]
        && state == old(state).(notes := ReplaceById(old(state).notes, response.value))
      ensures response.Err? ==>
        outcome == Err(MessageOr(response.error.message, "Failed to update note"))
        && state == old(state) && dispatched == old(dispatched)
    {
      if response.Ok? {
        Dispatch(UpdateSuccess(response.value));
        outcome := Ok(response.value);
      } else {
        outcome := Err(MessageOr(response.error.message, "Failed to update note"));
      }
    }

    /** `deleteNote`: removes the entries with that id once the DELETE succeeds. */
    method DeleteNote(id: string, response: Result<(), HttpError>) returns (outcome: Result<(), string>)
      modifies this
      ensures response.Ok? ==>
        outcome == Ok(()) && dispatched == old(dispatched) + [DeleteSuccess(id)]
        && state == old(state).(notes := RemoveById(old(state).notes, id))
      ensures response.Err? ==>
        outcome == Err(MessageOr(response.error.message, "Failed to delete note"))
        && state == old(state) && dispatched == old(dispatched)
    {
      if response.Ok? {
        Dispatch(DeleteSuccess(id));
        outcome := Ok(());
      } else {
        outcome := Err(MessageOr(response.error.message, "Failed to delete note"));
      }
    }

    /** `updateNoteOrder`: dispatches REORDER_SUCCESS only after the PATCH succeeds;
        on failure nothing is dispatched and the message is thrown. */
    method UpdateNoteOrder(id: string, newOrder: int, response: Result<Note, HttpError>)
      returns (outcome: Result<Note, string>)
      modifies this
      ensures response.Ok? ==>
        outcome == Ok(response.value) && dispatched == old(dispatched) + [ReorderSuccess(response.value)]
        && state == old(state).(notes := ReplaceById(old(state).notes, response.value))
      ensures response.Err? ==>
        outcome == Err(MessageOr(response.error.message, "Failed to update note order"))
        && state == old(state) && dispatched == old(dispatched)
    {
      if response.Ok? {
        Dispatch(ReorderSuccess(response.value));
        outcome := Ok(response.value);
      } else {
        outcome := Err(MessageOr(response.error.message, "Failed to update note order"));
      }
    }
  }
}
