# NoteMate notes: a Dafny model

NoteMate is a notes application. An Express/Mongoose server keeps each user's
notes, ranked by an integer `order`. A React client lists, filters, edits,
re-themes and re-ranks them. This project models the part of both that decides
what is stored and shown, and proves properties of it.

**Server** (`note_model.dfy`, `note_routes.dfy`)
- The note schema: the defaults Mongoose fills in, the title's `trim` setter, and the `required` checks made on save.
- The `noteValidation` chain of the create and update routes.
- The list, create, update and delete handlers, over an in-memory collection (`NoteRoutes.NoteStore`).
- The single-note move, which shifts the ranks between a note's old and new position and then sets its own rank.

**Client**
- The two notes contexts:
  - the reducer-based one (`notes_reducer.dfy`);
  - the `useState`-based one (`notes_state.dfy`).
- The `useNotes` hook (`use_notes.dfy`) and the list operations all three share (`note_lists.dfy`).
- The authentication reducer and provider (`auth_context.dfy`).
- The home page's note filter (`home.dfy`).
- The note card: edit validation, error collation, theme defaults and status menu (`note_card.dfy`).
- The colour-picker hook (`use_color_picker.dfy`) and the theme dialog (`color_picker.dfy`).

**Shared modules**
- `common.dfy`: option and result types, note status and the JSON-shaped theme.
- `text.dfy`: ASCII `trim`, `toLowerCase` and `includes`.
- `seqs.dfy`: `filter`, subsequences and an insertion sort.

## How the model is built

Code that keeps state (a route handler over the collection, a React component or
hook with `useState`/`useReducer`) becomes a class. Its fields are that state,
and each handler is a method that states the whole new state. Pure code (the
reducers, `filter`/`map`/`sort`, the validators, object spread) becomes
functions, with lemmas about them. An HTTP request's outcome is a parameter of
the handler that awaits it (`Result<…, HttpError>`). A generated id or the
current time is a parameter as well.

## Behaviour the model makes explicit

- **Ranks are kept distinct, but the store does not enforce it.**
  - Two notes of one user may share a rank, because the `{ user, order }` index is not unique (`NoteRoutes.IndexNotUnique`).
  - If a user's ranks are distinct before any handler runs, they are distinct afterwards (`NoteRoutes.NoteStore.*` and `NoteRoutes.MovePreservesDistinctRanks`).
  - The move accepts any integer, negative ones included, as the new rank.
- **A new note's rank is `(highest || 0) + 1`.** A user without notes gets rank 1.
- **Delete does not renumber.** It leaves a gap.
- **A white-space-only title passes validation but fails on save.** `notEmpty()` accepts it. The schema then trims it to `""`, `required` fails on save, and the handler answers 500 with nothing written.
- **Update validation also demands title and content.** The PATCH route would therefore reject a status-only body with 400 (`NoteRoutes.StatusOnlyUpdateRejected`). As the client is wired, no such PATCH is sent:
  - the home page takes `updateNote` from `hooks/useNotes`, which only changes local state (`frontend/src/hooks/useNotes.ts:51-56`);
  - the grid hands that same function to each card as `onUpdate` (`frontend/src/components/NotesGrid.tsx:26`), so the card's status menu sends nothing either.
- **The theme dialog's colours are rejected.** The dialog produces `rgba(…)` strings, which `isHexColor()` rejects (`NoteRoutes.RgbaColorRejected`).
- **Update stores the supplied theme object as it is.** Create lays the schema defaults under it.
- **On the client, a successful reorder replaces only the moved note.** The other notes keep their old ranks and the list is not re-sorted (`NotesContextReducer.ReorderLeavesStaleRanks`). A failed reorder dispatches nothing: there is no rollback and no re-fetch.
- **There is no batch re-ranking and no optimistic or debounced reorder.** The code contains neither, and the move handler is the only re-ranking operation.
- **Defaults differ between card and server.**
  - The card's and the dialog's default theme has `borderRadius` 16.
  - The server stores 8 by default.
  - The hook's default theme sets only the two colours.
- **The sidebar's "All" status shows nothing.** Its value is `''`, while the home page keeps everything only for `'all'`. With `''` selected the list is empty (`Home.SidebarAllShowsNothing`).

## Model

| member | source | states |
|---|---|---|
| Common.MessageOr | frontend/src/context/NotesContext.tsx:100 | the JavaScript fallback of an error message: a non-empty server message wins, an absent or empty one gives the fallback |
| Common.ParseStatus | backend/src/routes/note.routes.ts:18 | a status name is accepted exactly when it is 'active', 'archived' or 'completed', and parses to the status of that name |
| Common.ParseStatusName | backend/src/models/note.model.ts:63-67 | each status's name parses back to that status |
| Common.OverlayProperties | frontend/src/components/NoteCard.tsx:134-137 | spreading defaults then an override keeps every key of both; each key the override carries takes the override's value and every other key the base's; spreading the override again or spreading `{}` changes nothing |
| Text.TrimStart | backend/src/models/note.model.ts:24 | the result is the suffix after the leading white space, which is all dropped |
| Text.TrimEnd | backend/src/models/note.model.ts:24 | the result is the prefix before the trailing white space, which is all dropped |
| Text.Trim | backend/src/models/note.model.ts:24 | `trim` is `TrimEnd` after `TrimStart`; what it keeps is stated by `Text.TrimEmptyIffBlank` and `Text.TrimIdempotent` |
| Text.TrimEmptyIffBlank | frontend/src/components/NoteCard.tsx:160-166 | `s.trim()` is empty exactly when `s` is white space only |
| Text.TrimIdempotent | backend/src/models/note.model.ts:21-25 | trimming twice equals trimming once; a trimmed string has no white space at either end |
| Text.ToLower | frontend/src/pages/Home.tsx:67-68 | lower-casing keeps the length |
| Text.ToLowerIdempotent | frontend/src/pages/Home.tsx:67-68 | lower-casing twice equals lower-casing once |
| Text.Contains | frontend/src/pages/Home.tsx:67-68 | `includes`: the needle is a prefix of the haystack or of one of its suffixes; `Text.ContainsAt` and `Text.ContainsWitness` make that "occurs at some position" in both directions |
| Text.ContainsAt | frontend/src/pages/Home.tsx:67-68 | an occurrence of the needle at some position makes `includes` true |
| Text.ContainsWitness | frontend/src/pages/Home.tsx:67-68 | when `includes` is true the needle occurs at some position |
| Seqs.Filter | frontend/src/pages/Home.tsx:64-70 | `filter` keeps exactly the elements that pass, and no more of them than there were |
| Seqs.FilterIsSubsequence | frontend/src/pages/Home.tsx:64-70 | `filter` keeps the relative order of the kept elements |
| Seqs.FilterMultiset | frontend/src/context/NotesContext.tsx:67 | each passing element occurs as often after `filter` as before, each failing one never |
| Seqs.InsertionSort | frontend/src/contexts/NotesContext.tsx:42 | the sort is a permutation of its input |
| Seqs.InsertionSortSorted | frontend/src/contexts/NotesContext.tsx:42 | under a total, transitive comparator the result is sorted |
| NoteModel.NewNoteDefaults | backend/src/models/note.model.ts:35-71 | a note built without theme, status or order is 'active', has order 0 and the default colours, gradient flag, radius 8 and elevation 4 |
| NoteModel.NewNoteDoc | backend/src/models/note.model.ts:20-71 | `new Note({...})`: the title trimmed, the theme laid over the schema defaults, an absent status and rank replaced by their defaults; its properties are the three `NewNote*` lemmas |
| NoteModel.SchemaValid | backend/src/models/note.model.ts:21-29 | the `required` checks made on save: title and content not the empty string |
| NoteModel.NewNoteThemeMerge | backend/src/models/note.model.ts:35-62 | each supplied theme key (colours, gradient flag, radius, elevation) is stored as given; each missing one takes its default (#ffffff, #000000, false, 8, 4); the gradient colours, which have no default, are stored exactly as supplied |
| NoteModel.NewNoteSchemaValid | backend/src/models/note.model.ts:20-29 | a new note passes `required` exactly when its title is not white space only and its content is not empty, and its title is stored trimmed |
| NoteRoutes.ValidateAcceptsExactly | backend/src/routes/note.routes.ts:13-19 | a body passes exactly when title and content are non-empty, each supplied colour is a hex colour and a supplied status is one of the three; each of the five rules reports its own path and message exactly when it fails |
| NoteRoutes.StatusOnlyUpdateRejected | backend/src/routes/note.routes.ts:13-15 | a body with only a status gets exactly the title and content errors |
| NoteRoutes.RgbaColorRejected | backend/src/routes/note.routes.ts:16-17 | an `rgba(...)` colour is not a hex colour |
| NoteRoutes.Validate | backend/src/routes/note.routes.ts:13-19 | the five rules in the order the chain runs them, each contributing its error when it fails; `NoteRoutes.ValidateAcceptsExactly` states when each fails |
| NoteRoutes.FindOwned | backend/src/routes/note.routes.ts:74 | finds a position holding the user's note with that id, or reports that none exists |
| NoteRoutes.HighestOrder | backend/src/routes/note.routes.ts:43-45 | none exactly when the user has no notes, otherwise the rank of one of them that no other exceeds |
| NoteRoutes.NextOrderAboveAll | backend/src/routes/note.routes.ts:43-47 | a new note's rank is one above the user's highest rank, so above all of them, and 1 when the user has none |
| NoteRoutes.NextOrder | backend/src/routes/note.routes.ts:43-47 | one more than the user's highest rank, where no notes or a highest rank of 0 both give 0; `NoteRoutes.NextOrderAboveAll` states that it is above every rank the user holds |
| NoteRoutes.ListedBeforeIsTotalPreorder | backend/src/routes/note.routes.ts:24-25 | rank ascending, then newest first, is a total and transitive ordering |
| NoteRoutes.ListedBefore | backend/src/routes/note.routes.ts:25 | `sort({ order: 1, createdAt: -1 })`: a lower rank first, and among equal ranks the newer note, or either of two equally old ones, first |
| NoteRoutes.ListFor | backend/src/routes/note.routes.ts:24-25 | the listing holds exactly the user's notes, each as often as stored, sorted by rank ascending and then newest first |
| NoteRoutes.MoveRanksFrame | backend/src/routes/note.routes.ts:117-138 | a move up lowers the owner's ranks in (old, new] by one, a move down raises those in [new, old) by one; the moved note gets the new rank, other users' notes and all other fields are untouched, and a move to the same rank changes nothing |
| NoteRoutes.ShiftedFacts | backend/src/routes/note.routes.ts:120-135 | the shift never produces the target rank and keeps the order of the ranks it shifts |
| NoteRoutes.MovePreservesDistinctRanks | backend/src/routes/note.routes.ts:108-145 | if a user's ranks are distinct before a move to any integer rank, they are distinct after it |
| NoteRoutes.MoveKeepsRelativeOrder | backend/src/routes/note.routes.ts:117-138 | a move keeps the relative order of the owner's other notes |
| NoteRoutes.MoveExamples | backend/src/routes/note.routes.ts:117-138 | ranks A..E = 0..4: A to 3 gives B0 C1 D2 A3 E4, and E to 1 gives A0 E1 B2 C3 D4 |
| NoteRoutes.ShiftThenSet | backend/src/routes/note.routes.ts:117-139 | the range `updateMany` followed by setting the note's rank gives exactly MoveRanks, and keeps the collection valid |
| NoteRoutes.UpdateMany | backend/src/routes/note.routes.ts:121-135 | `updateMany` with a rank range and `$inc` on the user's notes, keeping the collection's length; `NoteRoutes.ShiftThenSet` states what the handler's use of it changes |
| NoteRoutes.MoveRanks | backend/src/routes/note.routes.ts:117-138 | the collection after a move, with the length kept; `NoteRoutes.MoveRanksFrame` states what moves and `NoteRoutes.ShiftThenSet` that the handler's two writes produce it |
| NoteRoutes.IndexNotUnique | backend/src/models/note.model.ts:77 | a valid collection may hold two notes of one user with the same rank |
| NoteRoutes.ApplyUpdateKeepsKeys | backend/src/routes/note.routes.ts:80-85 | an accepted update keeps the rank, owner, id and creation time |
| NoteRoutes.ApplyUpdateFields | backend/src/routes/note.routes.ts:73-85 | an accepted update sets the trimmed title and the content, and replaces the theme and the status only when supplied |
| NoteRoutes.ApplyUpdate | backend/src/routes/note.routes.ts:80-83 | the four `if (field) note.field = field` assignments of an accepted request, the title trimmed by its setter; its effect is stated by `NoteRoutes.ApplyUpdateFields` and `NoteRoutes.ApplyUpdateKeepsKeys` |
| NoteRoutes.NoteStore.List | backend/src/routes/note.routes.ts:22-30 | the reply holds exactly the user's notes, each as often as stored, sorted by rank ascending and then newest first |
| NoteRoutes.NoteStore.Create | backend/src/routes/note.routes.ts:33-63 | the reply is 400 with the validation errors, or 500 when the trimmed title is empty, or 201 with the note appended at rank one above the user's highest; the collection stays valid and the ranks distinct |
| NoteRoutes.NoteStore.Update | backend/src/routes/note.routes.ts:66-90 | the reply is 400 with the validation errors, 404 when the user has no such note, 500 when the trimmed title is empty, otherwise the updated note, written in place; no rank or owner changes |
| NoteRoutes.NoteStore.Save | backend/src/routes/note.routes.ts:85 | `note.save()` of a note that keeps its id, owner and rank: stored in place when the `required` checks pass, otherwise 500 with nothing written; no rank or owner changes and distinct ranks stay distinct |
| NoteRoutes.NoteStore.Delete | backend/src/routes/note.routes.ts:93-105 | the reply is 404 when the user has no such note; otherwise exactly that note is removed and no other rank changes |
| NoteRoutes.NoteStore.MoveNote | backend/src/routes/note.routes.ts:108-145 | the reply is 404 when the user has no such note; otherwise the collection becomes `MoveRanks` of the old one, and distinct ranks stay distinct |
| NoteRoutes.NoteStore.constructor | backend/src/models/note.model.ts:79 | the collection starts empty, which is a valid collection |
| NoteRoutes.RemovePreserves | backend/src/routes/note.routes.ts:95 | removing a note keeps ids unique, notes valid and ranks distinct |
| NoteRoutes.AppendPreserves | backend/src/routes/note.routes.ts:47-58 | appending a valid note with a fresh id above its owner's ranks keeps the collection valid and ranks distinct |
| NoteRoutes.ReplacePreserves | backend/src/routes/note.routes.ts:80-85 | replacing a note by a valid one with the same id, owner and rank keeps the collection valid and ranks distinct |
| NoteLists.ReplaceById | frontend/src/context/NotesContext.tsx:60-62 | `map` replacing each entry with the payload's id by the payload, keeping the length; `NoteLists.ReplaceByIdSpec` states the rest |
| NoteLists.MergeById | frontend/src/contexts/NotesContext.tsx:76 | `map` spreading the patch over each entry with that id, keeping the length; `NoteLists.MergeByIdSpec` states the rest |
| NoteLists.ReplaceByIdSpec | frontend/src/context/NotesContext.tsx:57-75 | replacing by id turns exactly the entries with that id into the payload, keeps ids and positions, is idempotent, and changes nothing when no entry has that id |
| NoteLists.MergeByIdSpec | frontend/src/contexts/NotesContext.tsx:75-77 | merging by id changes only entries with that id, each of which takes exactly the keys the patch carries (id, title, content, theme, status, rank, createdAt, updatedAt) and keeps the others; an empty patch changes nothing |
| NoteLists.RemoveById | frontend/src/contexts/NotesContext.tsx:84 | `filter` keeping the entries whose id differs; `NoteLists.RemoveByIdSpec` and `NoteLists.RemovedCount` state what it keeps |
| NoteLists.RemoveByIdSpec | frontend/src/contexts/NotesContext.tsx:84 | removing by id drops every entry with that id, keeps the others in order and as often as before, and shortens the list by the number of entries with that id |
| NoteLists.RemovedCount | frontend/src/hooks/useNotes.ts:60 | the list shrinks by exactly the number of entries carrying the id |
| NoteLists.SortByOrderSpec | frontend/src/contexts/NotesContext.tsx:42 | sorting by `a.order - b.order` is a permutation, non-decreasing by rank |
| NoteLists.SortByOrder | frontend/src/contexts/NotesContext.tsx:42 | `sort((a, b) => a.order - b.order)`, as an insertion sort by rank; `NoteLists.SortByOrderSpec` states that it is an ordered permutation |
| ClientTypes.Merge | frontend/src/contexts/NotesContext.tsx:76 | `{ ...n, ...patch }` on a note: each key the patch carries replaces the note's; `NoteLists.MergeByIdSpec` states it key by key |
| NotesContextReducer.ReduceFetch | frontend/src/context/NotesContext.tsx:33-51 | FETCH_START sets loading and clears the error, FETCH_SUCCESS replaces the notes, FETCH_FAILURE keeps them and records the message |
| NotesContextReducer.Reduce | frontend/src/context/NotesContext.tsx:31-79 | `notesReducer` on the seven actions; the `NotesContextReducer.Reduce*` lemmas and `ReorderLeavesStaleRanks` state each action's effect |
| NotesContextReducer.ReduceCreateAppends | frontend/src/context/NotesContext.tsx:52-56 | CREATE_SUCCESS appends the note and keeps every earlier entry in place |
| NotesContextReducer.ReduceReplaces | frontend/src/context/NotesContext.tsx:57-75 | UPDATE_SUCCESS and REORDER_SUCCESS act alike: each entry with the payload's id becomes the payload, nothing else changes |
| NotesContextReducer.ReduceDelete | frontend/src/context/NotesContext.tsx:64-68 | DELETE_SUCCESS drops every entry with that id and keeps the others |
| NotesContextReducer.ReorderLeavesStaleRanks | frontend/src/context/NotesContext.tsx:69-75 | after the server moves A from 0 to 1, the client holds A:1, B:1 in the old order |
| NotesContextReducer.Provider.Dispatch | frontend/src/context/NotesContext.tsx:84 | the state becomes the reducer's result and the action is recorded |
| NotesContextReducer.Provider.constructor | frontend/src/context/NotesContext.tsx:16-20 | the reducer starts from no notes, not loading, no error, with nothing dispatched |
| NotesContextReducer.Provider.FetchNotes | frontend/src/context/NotesContext.tsx:94-104 | dispatches FETCH_START, then FETCH_SUCCESS with the response, or FETCH_FAILURE with the server message or 'Failed to fetch notes', which it throws |
| NotesContextReducer.Provider.CreateNote | frontend/src/context/NotesContext.tsx:106-115 | on success appends the server's note; on failure dispatches nothing and throws the message or 'Failed to create note' |
| NotesContextReducer.Provider.UpdateNote | frontend/src/context/NotesContext.tsx:117-126 | on success replaces by id with the server's note; on failure dispatches nothing and throws the message or 'Failed to update note' |
| NotesContextReducer.Provider.DeleteNote | frontend/src/context/NotesContext.tsx:128-136 | on success removes the id; on failure dispatches nothing and throws the message or 'Failed to delete note' |
| NotesContextReducer.Provider.UpdateNoteOrder | frontend/src/context/NotesContext.tsx:138-149 | on success dispatches REORDER_SUCCESS with the server's note; on failure dispatches nothing and throws the message or 'Failed to update note order' |
| NotesContextState.Provider.constructor | frontend/src/contexts/NotesContext.tsx:32-33 | starts with no notes and loading |
| NotesContextState.Provider.FetchNotes | frontend/src/contexts/NotesContext.tsx:36-48 | on success the notes become the response sorted by rank; a failure leaves them; loading ends either way |
| NotesContextState.Provider.CreateNote | frontend/src/contexts/NotesContext.tsx:54-65 | on success the server's note is appended; a failure propagates and changes nothing |
| NotesContextState.Provider.UpdateNote | frontend/src/contexts/NotesContext.tsx:67-78 | once the PATCH succeeds the sent fields are merged into the entries with that id |
| NotesContextState.Provider.DeleteNote | frontend/src/contexts/NotesContext.tsx:80-85 | once the DELETE succeeds the entries with that id are removed |
| UseNotes.LocalNote | frontend/src/hooks/useNotes.ts:44-47 | the new note's id is the patch's own `_id` when it carries one, else the generated one |
| UseNotes.Hook.constructor | frontend/src/hooks/useNotes.ts:19-21 | starts with no notes, loading, and no error |
| UseNotes.Hook.FetchNotes | frontend/src/hooks/useNotes.ts:24-36 | on success the notes become the response sorted by rank and the error stays; on failure the error is recorded; loading ends either way |
| UseNotes.Hook.AddNote | frontend/src/hooks/useNotes.ts:42-49 | appends one note built from the patch, without contacting the server |
| UseNotes.Hook.UpdateNote | frontend/src/hooks/useNotes.ts:51-56 | merges the patch into the entries with that id |
| UseNotes.Hook.DeleteNote | frontend/src/hooks/useNotes.ts:58-61 | removes the entries with that id |
| AuthContext.ReduceEffects | frontend/src/contexts/AuthContext.tsx:27-61 | AUTH_START only sets loading and clears the error; AUTH_SUCCESS takes user and token; AUTH_FAILURE drops them and records the message; LOGOUT gives the initial state, not loading |
| AuthContext.Reduce | frontend/src/contexts/AuthContext.tsx:27-61 | `authReducer` on the four actions; `AuthContext.ReduceEffects` states each action's effect and `AuthContext.ReducePreservesConsistent` the invariant it keeps |
| AuthContext.ReducePreservesConsistent | frontend/src/contexts/AuthContext.tsx:27-61 | every action keeps "authenticated exactly when a token is held" |
| AuthContext.RunPreservesConsistent | frontend/src/contexts/AuthContext.tsx:27-61 | any sequence of actions keeps that invariant |
| AuthContext.ReachableConsistent | frontend/src/contexts/AuthContext.tsx:13-19 | every state reachable from the initial one satisfies it |
| AuthContext.StartupAction | frontend/src/contexts/AuthContext.tsx:68-80 | AUTH_SUCCESS with the stored token and user exactly when a non-empty token and a user are stored, else AUTH_FAILURE 'No token found' |
| AuthContext.Provider.Dispatch | frontend/src/contexts/AuthContext.tsx:66 | the state becomes the reducer's result and the action is recorded |
| AuthContext.Provider.constructor | frontend/src/contexts/AuthContext.tsx:13-19 | the reducer starts from the initial state (nobody, no token, loading), which is consistent, with nothing dispatched and the given stored entries |
| AuthContext.Provider.Startup | frontend/src/contexts/AuthContext.tsx:68-80 | dispatches exactly the start-up action, leaving storage as it was |
| AuthContext.Provider.Authenticate | frontend/src/contexts/AuthContext.tsx:82-114 | dispatches AUTH_START then AUTH_SUCCESS and stores the credentials, or AUTH_FAILURE with the message or fallback, which it throws, leaving storage; the new state is the reducer applied to both actions |
| AuthContext.Provider.Login | frontend/src/contexts/AuthContext.tsx:82-97 | AUTH_START then AUTH_SUCCESS with the token and user stored, or AUTH_FAILURE with the message or 'Login failed', thrown, and storage untouched; the new state is the reducer applied to both actions |
| AuthContext.Provider.Register | frontend/src/contexts/AuthContext.tsx:99-114 | AUTH_START then AUTH_SUCCESS with the token and user stored, or AUTH_FAILURE with the message or 'Registration failed', thrown, and storage untouched; the new state is the reducer applied to both actions |
| AuthContext.Provider.LogOut | frontend/src/contexts/AuthContext.tsx:116-120 | clears both stored entries and dispatches LOGOUT, which leaves nobody authenticated and nothing loading |
| Home.FilteredIsOrderedSelection | frontend/src/pages/Home.tsx:64-70 | the filtered list is a subsequence of the notes, kept exactly when they match status and search |
| Home.FilteredNotes | frontend/src/pages/Home.tsx:64-70 | `notes.filter` with the status and search tests; the `Home.*` lemmas state what it keeps |
| Home.InitialFiltersKeepAll | frontend/src/pages/Home.tsx:35-42 | with the initial filters every note is shown |
| Home.SidebarAllShowsNothing | frontend/src/pages/Home.tsx:65 | the status value '' shows no note |
| Home.StatusFilterExact | frontend/src/pages/Home.tsx:65 | a status other than 'all' keeps only notes with exactly that status |
| Home.DateRangeIgnored | frontend/src/pages/Home.tsx:64-70 | the date range never changes the result |
| Home.SearchIgnoresQueryCase | frontend/src/pages/Home.tsx:66-68 | lower-casing the query never changes the result |
| Home.SearchMatchesIffOccurs | frontend/src/pages/Home.tsx:66-68 | with a non-empty query a note matches exactly when the lower-cased query occurs in its lower-cased title or content |
| Home.Page.HandleStatusChange | frontend/src/pages/Home.tsx:47-53 | a failed update shows 'Failed to update note status', a successful one changes nothing |
| Home.Page.HandleAddNote | frontend/src/pages/Home.tsx:55-62 | success closes the add dialog; failure shows 'Failed to create note' |
| Home.Page.constructor | frontend/src/pages/Home.tsx:34-43 | the add-note dialog starts closed and no error is shown |
| NoteCard.NoteErrors | frontend/src/components/NoteCard.tsx:157-166 | the error map has 'Title is required' exactly when the title is blank, 'Content is required' exactly when the content is blank, and no other key; every message it holds is shown |
| NoteCard.NoteErrorsEmptyIff | frontend/src/components/NoteCard.tsx:157-170 | validation passes exactly when neither field is blank |
| NoteCard.FoldServerErrors | frontend/src/components/NoteCard.tsx:186-191 | the folded map's keys are exactly the paths the server reported |
| NoteCard.FoldLastWins | frontend/src/components/NoteCard.tsx:186-191 | a path's message is the one from its last entry |
| NoteCard.EffectiveTheme | frontend/src/components/NoteCard.tsx:79-85 | each key of the note's theme wins; a missing one takes the card default (#ffffff, #000000, no gradient, radius 16, elevation 4) |
| NoteCard.MenuItems | frontend/src/components/NoteCard.tsx:507-551 | 'Mark as Completed' is shown exactly when not completed, 'Archive' exactly when not archived, 'Unarchive' exactly when archived; Edit, Theme and Reset come first and Delete last |
| NoteCard.MenuChangesStatus | frontend/src/components/NoteCard.tsx:520-537 | every status entry shown asks for a different status, and every other status is offered except 'active' from 'completed' |
| NoteCard.Card.constructor | frontend/src/components/NoteCard.tsx:126-132 | the edit buffer starts as the note, with no dialog, menu or error |
| NoteCard.Card.HandleEdit | frontend/src/components/NoteCard.tsx:152-155 | enters edit mode and closes the menu |
| NoteCard.Card.EditTitle | frontend/src/components/NoteCard.tsx:328-333 | the buffer's title becomes the typed value, and a showing title error is removed; nothing else changes |
| NoteCard.Card.EditContent | frontend/src/components/NoteCard.tsx:361-366 | the buffer's content becomes the typed value, and a showing content error is removed; nothing else changes |
| NoteCard.TypingClearsTitleError | frontend/src/components/NoteCard.tsx:328-333 | after a save blocked by a blank title, typing into the title removes its error, and the content error stays exactly when the content is blank |
| NoteCard.Card.ValidateNote | frontend/src/components/NoteCard.tsx:157-170 | records `NoteErrors` of the buffer and reports whether both fields are non-blank |
| NoteCard.Card.HandleSave | frontend/src/components/NoteCard.tsx:172-194 | sends title and content only, and only when both are non-blank; success leaves edit mode and clears errors, and a failure with server errors shows their fold |
| NoteCard.Card.HandleCancel | frontend/src/components/NoteCard.tsx:196-199 | the buffer returns to the note and edit mode ends |
| NoteCard.Card.HandleMenuOpen | frontend/src/components/NoteCard.tsx:201-204 | opens the menu |
| NoteCard.Card.HandleMenuClose | frontend/src/components/NoteCard.tsx:206-208 | closes the menu |
| NoteCard.Card.HandleStatusChange | frontend/src/components/NoteCard.tsx:210-217 | sends only the status; the menu closes only when that succeeds |
| NoteCard.Card.HandleDeleteClick | frontend/src/components/NoteCard.tsx:219-222 | opens the delete dialog and closes the menu |
| NoteCard.Card.HandleDeleteConfirm | frontend/src/components/NoteCard.tsx:224-227 | the delete dialog closes only after the delete succeeds |
| NoteCard.Card.HandleDeleteCancel | frontend/src/components/NoteCard.tsx:229-231 | closes the delete dialog |
| NoteCard.Card.HandleResetTheme | frontend/src/components/NoteCard.tsx:237-244 | sends the card default theme; the menu closes only when that succeeds |
| NoteCard.Card.OpenColorPicker | frontend/src/components/NoteCard.tsx:511 | opens the theme dialog |
| NoteCard.Card.CloseColorPicker | frontend/src/components/NoteCard.tsx:578 | closes the theme dialog |
| UseColorPicker.Hook.constructor | frontend/src/hooks/useColorPicker.ts:13-21 | the theme is the argument, or #ffffff on #000000 without one; closed, background mode |
| UseColorPicker.Hook.OpenPicker | frontend/src/hooks/useColorPicker.ts:23-25 | opens the picker |
| UseColorPicker.Hook.ClosePicker | frontend/src/hooks/useColorPicker.ts:27-30 | closes the picker and leaves text mode |
| UseColorPicker.Hook.HandleColorChange | frontend/src/hooks/useColorPicker.ts:32-37 | the colour replaces the text colour in text mode, the background otherwise; no other key changes |
| UseColorPicker.Hook.ToggleTextColor | frontend/src/hooks/useColorPicker.ts:39-41 | flips text mode |
| UseColorPicker.ToggleTwice | frontend/src/hooks/useColorPicker.ts:39-41 | toggling twice restores every field |
| UseColorPicker.ReopenedPickerWritesBackground | frontend/src/hooks/useColorPicker.ts:27-37 | after close and reopen a picked colour goes to the background |
| ColorPicker.OrElse | frontend/src/components/ColorPicker.tsx:122-123 | the JavaScript fallback `a or b` yields `a` when it is a non-empty string, else `b` |
| ColorPicker.ShownColor | frontend/src/components/ColorPicker.tsx:117-125 | the colour the picker displays: the text colour in text mode, the gradient start (or the background) or the gradient end (or white) in gradient mode, the background otherwise; `ColorPicker.Recolored` states that it shows what was just written |
| ColorPicker.Recolored | frontend/src/components/ColorPicker.tsx:53-69 | exactly one colour key changes, chosen by text mode, then gradient start or end, then background; the picker then shows the colour written |
| ColorPicker.GradientToggled | frontend/src/components/ColorPicker.tsx:93-95 | only the gradient flag changes, to the negation of its truth value |
| ColorPicker.GradientToggleTwice | frontend/src/components/ColorPicker.tsx:93-95 | switching twice restores a set flag and leaves an absent one off |
| ColorPicker.Dialog.constructor | frontend/src/components/ColorPicker.tsx:39-44 | the local theme is the dialog default overridden by the prop; no picking mode |
| ColorPicker.Dialog.ThemePropChanged | frontend/src/components/ColorPicker.tsx:46-51 | a new prop rebuilds the local theme the same way |
| ColorPicker.Dialog.HandleColorChange | frontend/src/components/ColorPicker.tsx:53-69 | the local theme becomes `Recolored` by the current modes |
| ColorPicker.Dialog.TextButton | frontend/src/components/ColorPicker.tsx:142-145 | flips text mode and leaves gradient mode, so at most one mode is active |
| ColorPicker.Dialog.StartButton | frontend/src/components/ColorPicker.tsx:165-168 | toggles start mode and leaves text mode, so at most one mode is active |
| ColorPicker.Dialog.EndButton | frontend/src/components/ColorPicker.tsx:175-178 | toggles end mode and leaves text mode, so at most one mode is active |
| ColorPicker.Dialog.HandleGradientToggle | frontend/src/components/ColorPicker.tsx:93-95 | the local theme becomes `GradientToggled` |
| ColorPicker.Dialog.HandleBorderRadiusChange | frontend/src/components/ColorPicker.tsx:85-87 | only the radius changes |
| ColorPicker.Dialog.HandleElevationChange | frontend/src/components/ColorPicker.tsx:89-91 | only the elevation changes |
| ColorPicker.Dialog.HandleCancel | frontend/src/components/ColorPicker.tsx:80-83 | the local theme becomes the raw prop, without defaults, and the dialog asks to close |
| ColorPicker.Dialog.HandleSave | frontend/src/components/ColorPicker.tsx:71-78 | sends the local theme; the dialog asks to close only once that succeeds |
| ColorPicker.CancelDropsDefaults | frontend/src/components/ColorPicker.tsx:80-83 | a cancel right after opening on a prop without a radius drops the dialog's default radius 16: the local theme then has no radius |

## Left out

- HTTP, Express routing, axios, Mongoose queries and `localStorage` are not modelled as such. A request's outcome, a stored entry, a generated id and the current time are parameters.
- The authentication middleware and the user and auth routes are not part of this model. Every handler takes the authenticated user id as given.
- A malformed `:id` that Mongoose cannot cast (a 500) is not modelled: ids are already-cast strings.
- `NoteRoutes.NoteStore.MoveNote` takes `newOrder` as an integer. A string, a fraction or a missing `newOrder` is not modelled.
- Each handler is one atomic step. The move's two writes (`updateMany`, then `save`) and two creates reading the same highest rank are interleavings that are not modelled.
- The server's `updatedAt` timestamp is not modelled. `createdAt` is the creation time, as an integer on the server; on the client both timestamps are opaque strings.
- `trim`, `toLowerCase` and `includes` work on ASCII only. Unicode white space and case mapping are not modelled.
- `ColorPicker.Dialog.HandleColorChange` takes the formatted `rgba(r, g, b, a)` string as given. Formatting it from the picker's numbers is not modelled.
- `AuthContext.Provider.Startup` takes the stored user as already parsed. A stored value that `JSON.parse` rejects is not modelled.
- `Common.Overlay` treats a key as absent or present. A key that is present with the value `undefined` is not modelled.
- `UseNotes.LocalNote` fills keys the partial note lacks with empty values, where the source leaves them undefined.
- `NoteLists.SortByOrder` is proved to be an ordered permutation. Its stability among equal ranks is not proved.
- `NoteRoutes.NoteStore.List` sorts by rank, then newest first. Notes equal in both keys come out in their collection order, whereas the database's order for them is unspecified.
- `NoteCard.Card` does not model the `useColorPicker(note._id, theme)` call. It passes the note id where the hook expects a theme, and the card uses none of the hook's results.
- `Home.Page` takes the outcome of `createNote`/`updateNote` as a parameter. Its `useNotes()` call does not return `createNote`, `updateNoteTheme` or `updateNotesOrder`, so the add-note call fails in the source as written.
- Rendering, styling and animation are not modelled. This covers JSX, `getCardStyle`, the chart, the grid, the dialogs' layout, the sidebar's one-field updates, the login and register pages, and both token contexts.
- `backend/src/models/Note.ts` is not part of this model: the routes use `note.model.ts`.
