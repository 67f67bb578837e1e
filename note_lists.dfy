/** The pure note-list updates the client applies after a request resolves:
    replace by id, shallow-merge by id, remove by id and sort by rank. They are
    shared by frontend/src/context/NotesContext.tsx,
    frontend/src/contexts/NotesContext.tsx and frontend/src/hooks/useNotes.ts. */
module NoteLists {
  import opened Common
  import Seqs
  import opened ClientTypes

  function Ids(notes: seq<Note>): (r: seq<string>)
    ensures |r| == |notes|
  {
    seq(|notes|, i requires 0 <= i < |notes| => notes[i].id)
  }

  /** `notes.map(n => n._id === note._id ? note : n)`. */
  function ReplaceById(notes: seq<Note>, note: Note): (r: seq<Note>)
    ensures |r| == |notes|
  {
    seq(|notes|, i requires 0 <= i < |notes| => if notes[i].id == note.id then note else notes[i])
  }

  /** Replacing keeps length and positions: exactly the entries with the payload's
      id become the payload, the ids in order are unchanged, and replacing again
      changes nothing. When no entry has that id the list is unchanged. */
  lemma ReplaceByIdSpec(notes: seq<Note>, note: Note)
    ensures var r := ReplaceById(notes, note);
      && (forall i :: 0 <= i < |notes| && notes[i].id == note.id ==> r[i] == note)
      && (forall i :: 0 <= i < |notes| && notes[i].id != note.id ==> r[i] == notes[i])
      && Ids(r) == Ids(notes)
      && ReplaceById(r, note) == r
      && ((forall i :: 0 <= i < |notes| ==> notes[i].id != note.id) ==> r == notes)
  {
  }

  /** `notes.map(n => n._id === id ? { ...n, ...patch } : n)`. */
  function MergeById(notes: seq<Note>, id: string, patch: NotePatch): (r: seq<Note>)
    ensures |r| == |notes|
  {
    seq(|notes|, i requires 0 <= i < |notes| => if notes[i].id == id then Merge(notes[i], patch) else notes[i])
  }

  /** Merging touches only the entries with that id, and each of those keeps every
      key the patch does not carry. The ids stay as they were unless the patch
      carries an `_id` of its own, which then renames every matching entry. */
  lemma MergeByIdSpec(notes: seq<Note>, id: string, patch: NotePatch)
    ensures var r := MergeById(notes, id, patch);
      && (forall i :: 0 <= i < |notes| && notes[i].id != id ==> r[i] == notes[i])
      && (forall i :: 0 <= i < |notes| && notes[i].id == id ==>
            && r[i].order == patch.order.GetOr(notes[i].order)
            && r[i].title == patch.title.GetOr(notes[i].title)
            && r[i].content == patch.content.GetOr(notes[i].content)
            && r[i].status == patch.status.GetOr(notes[i].status)
            && r[i].theme == patch.theme.GetOr(notes[i].theme)
            && r[i].createdAt == patch.createdAt.GetOr(notes[i].createdAt)
            && r[i].updatedAt == patch.updatedAt.GetOr(notes[i].updatedAt))
      && (patch.id.None? || patch.id == Some(id) ==> Ids(r) == Ids(notes))
      && (patch.id.Some? ==> forall i :: 0 <= i < |notes| && notes[i].id == id ==> r[i].id == patch.id.value)
      && (patch == EmptyPatch ==> r == notes)
  {
  }

  function IdIsNot(id: string): Note -> bool {
    (n: Note) => n.id != id
  }

  /** `notes.filter(n => n._id !== id)`. */
  function RemoveById(notes: seq<Note>, id: string): seq<Note> {
    Seqs.Filter(notes, IdIsNot(id))
  }

  /** Removing drops every entry with that id and nothing else: the survivors keep
      their relative order and each other note occurs as often as before. */
  lemma RemoveByIdSpec(notes: seq<Note>, id: string)
    ensures var r := RemoveById(notes, id);
      && (forall i :: 0 <= i < |r| ==> r[i].id != id)
      && Seqs.IsSubsequence(r, notes)
      && (forall n: Note :: n.id != id ==> multiset(r)[n] == multiset(notes)[n])
      && |r| == |notes| - multiset(Ids(notes))[id]
  {
    Seqs.FilterIsSubsequence(notes, IdIsNot(id));
    forall n: Note | n.id != id ensures multiset(RemoveById(notes, id))[n] == multiset(notes)[n] {
      Seqs.FilterMultiset(notes, IdIsNot(id), n);
    }
    RemovedCount(notes, id);
  }

  /** The result is shorter by the number of entries with that id. */
  lemma {:induction false} RemovedCount(notes: seq<Note>, id: string)
    ensures |RemoveById(notes, id)| == |notes| - multiset(Ids(notes))[id]
  {
    if notes != [] {
      RemovedCount(notes[1..], id);
      assert Ids(notes) == [notes[0].id] + Ids(notes[1..]);
    }
  }

  /** The comparator `(a, b) => a.order - b.order`, as "may come first". */
  predicate OrderLe(a: Note, b: Note) {
    a.order <= b.order
  }

  /** `notes.sort((a, b) => a.order - b.order)`, as an insertion sort. */
  function SortByOrder(notes: seq<Note>): seq<Note> {
    Seqs.InsertionSort(notes, OrderLe)
  }

  /** The sorted list is a permutation of the input, non-decreasing by rank. */
  lemma SortByOrderSpec(notes: seq<Note>)
    ensures var r := SortByOrder(notes);
      && multiset(r) == multiset(notes)
      && forall i, j :: 0 <= i < j < |r| ==> r[i].order <= r[j].order
  {
    assert Seqs.Total(OrderLe) && Seqs.Transitive(OrderLe);
    Seqs.InsertionSortSorted(notes, OrderLe);
  }
}
