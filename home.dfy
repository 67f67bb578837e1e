/** The home page (frontend/src/pages/Home.tsx): the filter applied to the
    note list and the two handlers that set the page's own state. */
module Home {
  import opened Common
  import Text
  import Seqs
  import opened ClientTypes

  datatype DateRange = DateRange(start: string, end: string)

  datatype Filters = Filters(status: string, dateRange: DateRange, searchQuery: string)

  const InitialFilters := Filters("all", DateRange("", ""), "")

  predicate MatchesStatus(n: Note, f: Filters) {
    f.status == "all" || StatusName(n.status) == f.status
  }

  predicate MatchesSearch(n: Note, f: Filters) {
    || f.searchQuery == ""
    || Text.Contains(Text.ToLower(n.title), Text.ToLower(f.searchQuery))
    || Text.Contains(Text.ToLower(n.content), Text.ToLower(f.searchQuery))
  }

  function Keeps(f: Filters): Note -> bool {
    (n: Note) => MatchesStatus(n, f) && MatchesSearch(n, f)
  }

  /** `filteredNotes`. */
  function FilteredNotes(notes: seq<Note>, f: Filters): seq<Note> {
    Seqs.Filter(notes, Keeps(f))
  }

  /** The result keeps notes in their order, and a note is kept exactly when it
      matches both the status and the search. */
  lemma FilteredIsOrderedSelection(notes: seq<Note>, f: Filters)
    ensures Seqs.IsSubsequence(FilteredNotes(notes, f), notes)
    ensures forall i :: 0 <= i < |FilteredNotes(notes, f)| ==>
      MatchesStatus(FilteredNotes(notes, f)[i], f) && MatchesSearch(FilteredNotes(notes, f)[i], f)
    ensures forall i :: 0 <= i < |notes| && MatchesStatus(notes[i], f) && MatchesSearch(notes[i], f) ==>
      notes[i] in FilteredNotes(notes, f)
  {
    Seqs.FilterIsSubsequence(notes, Keeps(f));
  }

  /** With the initial filters every note is shown. */
  lemma InitialFiltersKeepAll(notes: seq<Note>)
    ensures FilteredNotes(notes, InitialFilters) == notes
  {
    Seqs.FilterAllOrNone(notes, Keeps(InitialFilters));
  }

  /** The sidebar's "All" entry has the value '', which no status equals, so
      selecting it shows no note at all. */
  lemma SidebarAllShowsNothing(notes: seq<Note>, dates: DateRange, query: string)
    ensures FilteredNotes(notes, Filters("", dates, query)) == []
  {
    Seqs.FilterAllOrNone(notes, Keeps(Filters("", dates, query)));
  }

  /** A status other than 'all' keeps only notes with exactly that status. */
  lemma StatusFilterExact(notes: seq<Note>, f: Filters)
    requires f.status != "all"
    ensures forall i :: 0 <= i < |FilteredNotes(notes, f)| ==> StatusName(FilteredNotes(notes, f)[i].status) == f.status
  {
  }

  /** The date range never affects the result. */
  lemma DateRangeIgnored(notes: seq<Note>, f: Filters, dates: DateRange)
    ensures FilteredNotes(notes, f.(dateRange := dates)) == FilteredNotes(notes, f)
  {
    Seqs.FilterCongruent(notes, Keeps(f.(dateRange := dates)), Keeps(f));
  }

  /** The search ignores the case of ASCII letters in the query. */
  lemma SearchIgnoresQueryCase(notes: seq<Note>, f: Filters)
    ensures FilteredNotes(notes, f.(searchQuery := Text.ToLower(f.searchQuery))) == FilteredNotes(notes, f)
  {
    Text.ToLowerIdempotent(f.searchQuery);
    Seqs.FilterCongruent(notes, Keeps(f.(searchQuery := Text.ToLower(f.searchQuery))), Keeps(f));
  }

  /** With a non-empty query, a note matches exactly when the lower-cased query
      occurs at some position of the lower-cased title or content. */
  lemma SearchMatchesIffOccurs(n: Note, f: Filters)
    requires f.searchQuery != ""
    ensures MatchesSearch(n, f) <==>
      || (exists k :: Text.OccursAt(Text.ToLower(n.title), Text.ToLower(f.searchQuery), k))
      || (exists k :: Text.OccursAt(Text.ToLower(n.content), Text.ToLower(f.searchQuery), k))
  {
    var title, content, query := Text.ToLower(n.title), Text.ToLower(n.content), Text.ToLower(f.searchQuery);
    if Text.Contains(title, query) {
      var k := Text.ContainsWitness(title, query);
    } else if Text.Contains(content, query) {
      var k := Text.ContainsWitness(content, query);
    }
    if exists k :: Text.OccursAt(title, query, k) {
      var k :| Text.OccursAt(title, query, k);
      Text.ContainsAt(title, query, k);
    }
    if exists k :: Text.OccursAt(content, query, k) {
      var k :| Text.OccursAt(content, query, k);
      Text.ContainsAt(content, query, k);
    }
  }

  /** The page's own state: the add-note dialog flag and the error banner. */
  class Page {
    var isAddingNote: bool
    var error: Option<string>

    constructor ()
      ensures !isAddingNote && error.None?
    {
      isAddingNote := false;
      error := None;
    }

    /** `handleStatusChange`: a failed update shows 'Failed to update note status'. */
    method HandleStatusChange(response: Result<(), HttpError>)
      modifies this
      ensures isAddingNote == old(isAddingNote)
      ensures error == if response.Ok? then old(error) else Some("Failed to update note status")
    {
      if response.Err? {
        error := Some("Failed to update note status");
      }
    }

    /** `handleAddNote`: success closes the dialog, failure shows 'Failed to create note'. */
    method HandleAddNote(response: Result<(), HttpError>)
      modifies this
      ensures response.Ok? ==> !isAddingNote && error == old(error)
      ensures response.Err? ==> isAddingNote == old(isAddingNote) && error == Some("Failed to create note")
    {
      if response.Ok? {
        isAddingNote := false;
      } else {
        error := Some("Failed to create note");
      }
    }
  }
}
