/** The note routes (backend/src/routes/note.routes.ts): request validation,
    listing, create, update, delete and the move that re-ranks a user's notes.
    Each handler runs as one atomic step over the in-memory collection. */
module NoteRoutes {
  import opened Common
  import Text
  import Seqs
  import opened NoteModel

  /** The JSON body of a create or update request. */
  datatype NoteRequest = NoteRequest(
    title: Option<string>,
    content: Option<string>,
    theme: Option<Theme>,
    status: Option<string>)

  /** One entry of `errors.array()`. */
  datatype ValidationError = ValidationError(path: string, msg: string)

  /** What a handler sends back. */
  datatype Reply =
    | NotesListed(notes: seq<NoteDoc>)          // 200, the array of notes
    | NoteCreated(note: NoteDoc)                // 201, the new note
    | NoteSaved(note: NoteDoc)                  // 200, the updated or moved note
    | NoteDeleted                               // 200, { message: 'Note deleted' }
    | BadRequest(errors: seq<ValidationError>)  // 400, { errors }
    | NotFound                                  // 404, { message: 'Note not found' }
    | ServerError                               // 500, { message: 'Server error' }

  // ---------------------------------------------------------------- validation

  predicate IsHexDigit(c: char) {
    '0' <= c <= '9' || 'a' <= c <= 'f' || 'A' <= c <= 'F'
  }

  /** `isHexColor()`: an optional '#' followed by 3, 4, 6 or 8 hexadecimal digits. */
  predicate IsHexColor(s: string) {
    var digits := if |s| > 0 && s[0] == '#' then s[1..] else s;
    && (|digits| == 3 || |digits| == 4 || |digits| == 6 || |digits| == 8)
    && forall i :: 0 <= i < |digits| ==> IsHexDigit(digits[i])
  }

  /** `notEmpty()`: an absent field reads as the empty string. */
  predicate NotEmpty(field: Option<string>) {
    field.Some? && field.value != ""
  }

  /** `optional().isHexColor()` on one colour of an optional theme. */
  predicate ColorOk(color: Option<string>) {
    color.None? || IsHexColor(color.value)
  }

  predicate StatusOk(status: Option<string>) {
    status.None? || ParseStatus(status.value).Some?
  }

  function Check(ok: bool, path: string, msg: string): seq<ValidationError> {
    if ok then [] else [ValidationError(path, msg)]
  }

  /** The `noteValidation` chain, in order. */
  function Validate(req: NoteRequest): seq<ValidationError> {
    var theme := req.theme.GetOr(NoTheme);
    Check(NotEmpty(req.title), "title", "Title is required")
    + Check(NotEmpty(req.content), "content", "Content is required")
    + Check(ColorOk(theme.backgroundColor), "theme.backgroundColor", "Invalid background color")
    + Check(ColorOk(theme.textColor), "theme.textColor", "Invalid text color")
    + Check(StatusOk(req.status), "status", "Invalid status")
  }

  /** The request passes exactly when title and content are non-empty, each
      supplied colour is a hex colour and a supplied status is one of the three;
      each failing rule contributes its own message. */
  lemma ValidateAcceptsExactly(req: NoteRequest)
    ensures var theme := req.theme.GetOr(NoTheme);
      && (Validate(req) == [] <==>
          NotEmpty(req.title) && NotEmpty(req.content)
          && ColorOk(theme.backgroundColor) && ColorOk(theme.textColor) && StatusOk(req.status))
      && (ValidationError("title", "Title is required") in Validate(req) <==> !NotEmpty(req.title))
      && (ValidationError("content", "Content is required") in Validate(req) <==> !NotEmpty(req.content))
      && (ValidationError("theme.backgroundColor", "Invalid background color") in Validate(req)
          <==> !ColorOk(theme.backgroundColor))
      && (ValidationError("theme.textColor", "Invalid text color") in Validate(req) <==> !ColorOk(theme.textColor))
      && (ValidationError("status", "Invalid status") in Validate(req) <==> !StatusOk(req.status))
  {
    var theme := req.theme.GetOr(NoTheme);
    var parts := [Check(NotEmpty(req.title), "title", "Title is required"),
                  Check(NotEmpty(req.content), "content", "Content is required"),
                  Check(ColorOk(theme.backgroundColor), "theme.backgroundColor", "Invalid background color"),
                  Check(ColorOk(theme.textColor), "theme.textColor", "Invalid text color"),
                  Check(StatusOk(req.status), "status", "Invalid status")];
    assert Validate(req) == parts[0] + parts[1] + parts[2] + parts[3] + parts[4];
  }

  /** A status-only body, as the card's status menu sends it, fails validation
      because the same chain also requires title and content. */
  lemma StatusOnlyUpdateRejected(s: Status)
    ensures Validate(NoteRequest(None, None, None, Some(StatusName(s))))
         == [ValidationError("title", "Title is required"), ValidationError("content", "Content is required")]
  {
  }

  /** The colour picker produces `rgba(...)` strings, which are not hex colours. */
  lemma RgbaColorRejected()
    ensures !IsHexColor("rgba(0, 0, 0, 1)")
  {
  }

  // ---------------------------------------------------------------- queries

  predicate Owns(d: NoteDoc, user: UserId, id: NoteId) {
    d.id == id && d.user == user
  }

  /** `findOne({ _id: id, user })`: the position of the user's note with that id. */
  function FindOwned(docs: seq<NoteDoc>, user: UserId, id: NoteId): (k: Option<nat>)
    ensures k.Some? ==> k.value < |docs| && Owns(docs[k.value], user, id)
    ensures k.None? ==> forall i :: 0 <= i < |docs| ==> !Owns(docs[i], user, id)
  {
    if docs == [] then None
    else if Owns(docs[0], user, id) then Some(0)
    else
      var k := FindOwned(docs[1..], user, id);
      if k.Some? then Some(k.value + 1) else None
  }

  /** `findOne({ user }).sort({ order: -1 })`: the highest rank of the user's notes. */
  function HighestOrder(docs: seq<NoteDoc>, user: UserId): (h: Option<int>)
    ensures h.None? <==> forall i :: 0 <= i < |docs| ==> docs[i].user != user
    ensures h.Some? ==> exists i :: 0 <= i < |docs| && docs[i].user == user && docs[i].order == h.value
    ensures h.Some? ==> forall i :: 0 <= i < |docs| && docs[i].user == user ==> docs[i].order <= h.value
  {
    if docs == [] then None
    else
      var rest := HighestOrder(docs[1..], user);
      assert forall i :: 1 <= i < |docs| ==> docs[i] == docs[1..][i - 1];
      if docs[0].user != user then rest
      else if rest.Some? && rest.value > docs[0].order then rest
      else Some(docs[0].order)
  }

  /** `(highestOrder?.order || 0) + 1`. */
  function NextOrder(docs: seq<NoteDoc>, user: UserId): int {
    var h := HighestOrder(docs, user);
    (if h.Some? && h.value != 0 then h.value else 0) + 1
  }

  /** The rank given to a new note is one more than the user's highest rank, or 1
      when the user has no notes, so it is above every rank the user holds. */
  lemma NextOrderAboveAll(docs: seq<NoteDoc>, user: UserId)
    ensures (forall i :: 0 <= i < |docs| ==> docs[i].user != user) ==> NextOrder(docs, user) == 1
    ensures forall i :: 0 <= i < |docs| && docs[i].user == user ==> docs[i].order < NextOrder(docs, user)
    ensures (exists i :: 0 <= i < |docs| && docs[i].user == user) ==>
      exists i :: 0 <= i < |docs| && docs[i].user == user && docs[i].order + 1 == NextOrder(docs, user)
  {
  }

  /** The user's notes, as `find({ user })` selects them. */
  function UserDocs(docs: seq<NoteDoc>, user: UserId): seq<NoteDoc> {
    Seqs.Filter(docs, (d: NoteDoc) => d.user == user)
  }

  /** `sort({ order: 1, createdAt: -1 })`: by rank ascending, newest first among equal ranks. */
  predicate ListedBefore(a: NoteDoc, b: NoteDoc) {
    a.order < b.order || (a.order == b.order && a.createdAt >= b.createdAt)
  }

  lemma ListedBeforeIsTotalPreorder()
    ensures Seqs.Total(ListedBefore) && Seqs.Transitive(ListedBefore)
  {
  }

  /** The listing of one user's notes: exactly those notes, in listing order. */
  function ListFor(docs: seq<NoteDoc>, user: UserId): (r: seq<NoteDoc>)
    ensures multiset(r) == multiset(UserDocs(docs, user))
    ensures Seqs.Sorted(r, ListedBefore)
  {
    ListedBeforeIsTotalPreorder();
    Seqs.InsertionSortSorted(UserDocs(docs, user), ListedBefore);
    Seqs.InsertionSort(UserDocs(docs, user), ListedBefore)
  }

  // ---------------------------------------------------------------- ranks

  /** No two notes of the same user share a rank. */
  predicate DistinctRanks(docs: seq<NoteDoc>) {
    forall i, j :: 0 <= i < |docs| && 0 <= j < |docs| && i != j && docs[i].user == docs[j].user
      ==> docs[i].order != docs[j].order
  }

  /** An order filter such as `{ $gt: a, $lte: b }`. */
  datatype OrderRange = OrderRange(lo: int, loInclusive: bool, hi: int, hiInclusive: bool)

  predicate InRange(r: OrderRange, x: int) {
    (if r.loInclusive then r.lo <= x else r.lo < x) && (if r.hiInclusive then x <= r.hi else x < r.hi)
  }

  /** `updateMany({ user, order: range }, { $inc: { order: delta } })`. */
  function UpdateMany(docs: seq<NoteDoc>, user: UserId, range: OrderRange, delta: int): (r: seq<NoteDoc>)
    ensures |r| == |docs|
  {
    seq(|docs|, i requires 0 <= i < |docs| =>
      if docs[i].user == user && InRange(range, docs[i].order) then docs[i].(order := docs[i].order + delta)
      else docs[i])
  }

  /** Where a rank other than the moved note's ends up when a note moves from
      `oldOrder` to `newOrder`: a move up pulls (oldOrder, newOrder] down by one,
      a move down pushes [newOrder, oldOrder) up by one. */
  function Shifted(x: int, oldOrder: int, newOrder: int): int {
    if newOrder > oldOrder && oldOrder < x <= newOrder then x - 1
    else if newOrder < oldOrder && newOrder <= x < oldOrder then x + 1
    else x
  }

  /** The collection after the note at position `k` moves to rank `newOrder`:
      the moved note takes `newOrder`, the other notes of its owner are shifted,
      and nothing else changes. */
  function MoveRanks(docs: seq<NoteDoc>, k: nat, newOrder: int): (r: seq<NoteDoc>)
    requires k < |docs|
    ensures |r| == |docs|
  {
    seq(|docs|, i requires 0 <= i < |docs| =>
      if i == k then docs[i].(order := newOrder)
      else if docs[i].user == docs[k].user then docs[i].(order := Shifted(docs[i].order, docs[k].order, newOrder))
      else docs[i])
  }

  /** Outside the moved note, a move touches only ranks of the owner's notes inside
      the shifted interval, each by exactly one; a move to the same rank is a no-op. */
  lemma MoveRanksFrame(docs: seq<NoteDoc>, k: nat, newOrder: int)
    requires k < |docs|
    ensures var r := MoveRanks(docs, k, newOrder); var o := docs[k].order;
      && r[k] == docs[k].(order := newOrder)
      && (forall i :: 0 <= i < |docs| ==> r[i] == docs[i].(order := r[i].order))
      && (forall i :: 0 <= i < |docs| && docs[i].user != docs[k].user ==> r[i] == docs[i])
      && (forall i :: 0 <= i < |docs| && i != k && newOrder > o ==>
            r[i].order == if docs[i].user == docs[k].user && o < docs[i].order <= newOrder
                          then docs[i].order - 1 else docs[i].order)
      && (forall i :: 0 <= i < |docs| && i != k && newOrder < o ==>
            r[i].order == if docs[i].user == docs[k].user && newOrder <= docs[i].order < o
                          then docs[i].order + 1 else docs[i].order)
      && (newOrder == o ==> r == docs)
  {
  }

  /** Shifting is injective on ranks other than the old one and never lands on
      the new rank, and it keeps their order. */
  lemma ShiftedFacts(x: int, y: int, oldOrder: int, newOrder: int)
    requires x != oldOrder && y != oldOrder
    ensures Shifted(x, oldOrder, newOrder) != newOrder || newOrder == oldOrder
    ensures x < y <==> Shifted(x, oldOrder, newOrder) < Shifted(y, oldOrder, newOrder)
  {
  }

  /** If a user's ranks are pairwise distinct before a move, they are afterwards,
      whatever integer the new rank is. */
  lemma {:induction false} MovePreservesDistinctRanks(docs: seq<NoteDoc>, k: nat, newOrder: int)
    requires k < |docs| && DistinctRanks(docs)
    ensures DistinctRanks(MoveRanks(docs, k, newOrder))
  {
    var r := MoveRanks(docs, k, newOrder);
    var o := docs[k].order;
    forall i, j | 0 <= i < |r| && 0 <= j < |r| && i != j && r[i].user == r[j].user
      ensures r[i].order != r[j].order
    {
      if docs[i].user == docs[k].user {
        if i == k {
          assert docs[j].order != o;
          ShiftedFacts(docs[j].order, docs[j].order, o, newOrder);
        } else if j == k {
          assert docs[i].order != o;
          ShiftedFacts(docs[i].order, docs[i].order, o, newOrder);
        } else {
          assert docs[i].order != o && docs[j].order != o;
          ShiftedFacts(docs[i].order, docs[j].order, o, newOrder);
          ShiftedFacts(docs[j].order, docs[i].order, o, newOrder);
          if newOrder == o {
            assert r[i].order == docs[i].order && r[j].order == docs[j].order;
          }
        }
      }
    }
  }

  /** A move keeps the relative order of the owner's other notes. */
  lemma {:induction false} MoveKeepsRelativeOrder(docs: seq<NoteDoc>, k: nat, newOrder: int)
    requires k < |docs| && DistinctRanks(docs)
    ensures var r := MoveRanks(docs, k, newOrder);
      forall i, j :: 0 <= i < |docs| && 0 <= j < |docs| && i != k && j != k
                     && docs[i].user == docs[k].user && docs[j].user == docs[k].user
        ==> (docs[i].order < docs[j].order <==> r[i].order < r[j].order)
  {
    var r := MoveRanks(docs, k, newOrder);
    forall i, j | 0 <= i < |docs| && 0 <= j < |docs| && i != k && j != k
                  && docs[i].user == docs[k].user && docs[j].user == docs[k].user
      ensures docs[i].order < docs[j].order <==> r[i].order < r[j].order
    {
      ShiftedFacts(docs[i].order, docs[j].order, docs[k].order, newOrder);
    }
  }

  /** Five notes A..E of one user ranked 0..4: moving A to rank 3 gives
      B:0, C:1, D:2, A:3, E:4, and moving E to rank 1 gives A:0, E:1, B:2, C:3, D:4. */
  lemma MoveExamples()
    ensures var docs := [Ranked("A", 0), Ranked("B", 1), Ranked("C", 2), Ranked("D", 3), Ranked("E", 4)];
      && Orders(MoveRanks(docs, 0, 3)) == [3, 0, 1, 2, 4]
      && Orders(MoveRanks(docs, 4, 1)) == [0, 2, 3, 4, 1]
  {
    var docs := [Ranked("A", 0), Ranked("B", 1), Ranked("C", 2), Ranked("D", 3), Ranked("E", 4)];
    assert Orders(MoveRanks(docs, 0, 3)) == [3, 0, 1, 2, 4];
    assert Orders(MoveRanks(docs, 4, 1)) == [0, 2, 3, 4, 1];
  }

  function Ranked(id: NoteId, order: int): NoteDoc {
    NoteDoc(id, "u", id, id, ThemeDefaults, Active, order, 0)
  }

  function Orders(docs: seq<NoteDoc>): (r: seq<int>)
    ensures |r| == |docs|
  {
    seq(|docs|, i requires 0 <= i < |docs| => docs[i].order)
  }

  /** Storage does not enforce distinct ranks: two notes of one user may share a rank. */
  lemma IndexNotUnique()
    ensures ValidCollection([Ranked("A", 1), Ranked("B", 1)])
    ensures !DistinctRanks([Ranked("A", 1), Ranked("B", 1)])
  {
    var docs := [Ranked("A", 1), Ranked("B", 1)];
    assert docs[0].order == docs[1].order;
  }

  // ---------------------------------------------------------------- update

  /** A status in an accepted request is one of the three names. */
  lemma AcceptedStatusParses(req: NoteRequest)
    requires Validate(req) == []
    ensures req.status.Some? ==> ParseStatus(req.status.value).Some?
  {
    var theme := req.theme.GetOr(NoTheme);
    assert Validate(req) == Check(NotEmpty(req.title), "title", "Title is required")
      + Check(NotEmpty(req.content), "content", "Content is required")
      + Check(ColorOk(theme.backgroundColor), "theme.backgroundColor", "Invalid background color")
      + Check(ColorOk(theme.textColor), "theme.textColor", "Invalid text color")
      + Check(StatusOk(req.status), "status", "Invalid status");
  }

  /** The field assignments of the update handler: a field is assigned when it
      is truthy (`NotEmpty`), and the title setter trims. */
  function ApplyUpdate(d: NoteDoc, req: NoteRequest): NoteDoc
    requires Validate(req) == []
  {
    AcceptedStatusParses(req);
    var d1 := if NotEmpty(req.title) then d.(title := Text.Trim(req.title.value)) else d;
    var d2 := if NotEmpty(req.content) then d1.(content := req.content.value) else d1;
    var d3 := if req.theme.Some? then d2.(theme := req.theme.value) else d2;
    if NotEmpty(req.status) then d3.(status := ParseStatus(req.status.value).value) else d3
  }

  /** An accepted update never changes the rank, the owner, the id or the
      creation time. */
  lemma ApplyUpdateKeepsKeys(d: NoteDoc, req: NoteRequest)
    requires Validate(req) == []
    ensures var u := ApplyUpdate(d, req);
      u.order == d.order && u.id == d.id && u.user == d.user && u.createdAt == d.createdAt
  {
  }

  /** An accepted update sets title (trimmed) and content, replaces the theme when
      one is supplied and the status when one is supplied; with
      `ApplyUpdateKeepsKeys` this gives every field of the result. */
  lemma ApplyUpdateFields(d: NoteDoc, req: NoteRequest)
    requires Validate(req) == []
    ensures var u := ApplyUpdate(d, req);
      && u.title == Text.Trim(req.title.value) && u.content == req.content.value
      && u.theme == (if req.theme.Some? then req.theme.value else d.theme)
      && StatusName(u.status) == (if req.status.Some? then req.status.value else StatusName(d.status))
  {
    ValidateAcceptsExactly(req);
  }

  // ---------------------------------------------------------------- the store

  /** The notes collection and the route handlers that act on it. */
  class NoteStore {
    var docs: seq<NoteDoc>

    ghost predicate Valid()
      reads this
    {
      ValidCollection(docs)
    }

    constructor ()
      ensures Valid() && docs == []
    {
      docs := [];
    }

    /** GET /: the user's notes, ranks ascending, newest first among equal ranks. */
    method List(user: UserId) returns (reply: Reply)
      ensures reply.NotesListed?
      ensures multiset(reply.notes) == multiset(UserDocs(docs, user))
      ensures forall i :: 0 <= i < |reply.notes| ==> reply.notes[i].user == user && reply.notes[i] in docs
      ensures Seqs.Sorted(reply.notes, ListedBefore)
    {
      var mine := UserDocs(docs, user);
      var sorted := ListFor(docs, user);
      forall i | 0 <= i < |sorted| ensures sorted[i].user == user && sorted[i] in docs {
        assert sorted[i] in multiset(mine);
      }
      reply := NotesListed(sorted);
    }

    /** POST /: validate, then append a note ranked above all of the user's notes. */
    method Create(user: UserId, req: NoteRequest, freshId: NoteId, now: int) returns (reply: Reply)
      requires Valid()
      requires forall i :: 0 <= i < |docs| ==> docs[i].id != freshId
      modifies this
      ensures Valid()
      ensures Validate(req) != [] ==> reply == BadRequest(Validate(req)) && docs == old(docs)
      ensures Validate(req) == [] ==>
        var d := NewNoteDoc(freshId, user, req.title.value, req.content.value, req.theme,
                            if req.status.Some? then ParseStatus(req.status.value) else None,
                            Some(NextOrder(old(docs), user)), now);
        if SchemaValid(d) then reply == NoteCreated(d) && docs == old(docs) + [d]
        else reply == ServerError && docs == old(docs)
      ensures DistinctRanks(old(docs)) ==> DistinctRanks(docs)
    {
      var errors := Validate(req);
      if errors != [] {
        return BadRequest(errors);
      }
      ValidateAcceptsExactly(req);
      var order := NextOrder(docs, user);
      NextOrderAboveAll(docs, user);
      var status := if req.status.Some? then ParseStatus(req.status.value) else None;
      var note := NewNoteDoc(freshId, user, req.title.value, req.content.value, req.theme, status, Some(order), now);
      if !SchemaValid(note) {
        return ServerError;
      }
      AppendPreserves(docs, note);
      docs := docs + [note];
      reply := NoteCreated(note);
    }

    /** PATCH /:id: validate, find the user's note, assign the supplied fields, save. */
    method Update(user: UserId, id: NoteId, req: NoteRequest) returns (reply: Reply)
      requires Valid()
      modifies this
      ensures Valid()
      ensures Validate(req) != [] ==> reply == BadRequest(Validate(req)) && docs == old(docs)
      ensures Validate(req) == [] && FindOwned(old(docs), user, id).None? ==>
        reply == NotFound && docs == old(docs)
      ensures Validate(req) == [] && FindOwned(old(docs), user, id).Some? ==>
        var k := FindOwned(old(docs), user, id).value;
        var d := ApplyUpdate(old(docs)[k], req);
        if SchemaValid(d) then reply == NoteSaved(d) && docs == old(docs)[k := d]
        else reply == ServerError && docs == old(docs)
      ensures |docs| == |old(docs)|
      ensures forall i :: 0 <= i < |docs| ==>
        docs[i].order == old(docs)[i].order && docs[i].user == old(docs)[i].user
      ensures DistinctRanks(old(docs)) ==> DistinctRanks(docs)
    {
      var errors := Validate(req);
      if errors != [] {
        return BadRequest(errors);
      }
      var found := FindOwned(docs, user, id);
      if found.None? {
        return NotFound;
      }
      var k := found.value;
      var note := ApplyUpdate(docs[k], req);
      ApplyUpdateKeepsKeys(docs[k], req);
      reply := Save(k, note);
    }

    /** `note.save()` of a document that keeps its id, owner and rank: the
        `required` checks decide between storing it and a 500. */
    method Save(k: nat, note: NoteDoc) returns (reply: Reply)
      requires Valid() && k < |docs|
      requires note.id == docs[k].id && note.user == docs[k].user && note.order == docs[k].order
      modifies this
      ensures Valid()
      ensures if SchemaValid(note) then reply == NoteSaved(note) && docs == old(docs)[k := note]
              else reply == ServerError && docs == old(docs)
      ensures |docs| == |old(docs)|
      ensures forall i :: 0 <= i < |docs| ==>
        docs[i].order == old(docs)[i].order && docs[i].user == old(docs)[i].user
      ensures DistinctRanks(old(docs)) ==> DistinctRanks(docs)
    {
      if !SchemaValid(note) {
        return ServerError;
      }
      ReplacePreserves(docs, k, note);
      docs := docs[k := note];
      reply := NoteSaved(note);
    }

    /** DELETE /:id: remove the user's note; no other rank is renumbered. */
    method Delete(user: UserId, id: NoteId) returns (reply: Reply)
      requires Valid()
      modifies this
      ensures Valid()
      ensures FindOwned(old(docs), user, id).None? ==> reply == NotFound && docs == old(docs)
      ensures FindOwned(old(docs), user, id).Some? ==>
        var k := FindOwned(old(docs), user, id).value;
        reply == NoteDeleted && docs == old(docs)[..k] + old(docs)[k + 1..]
      ensures DistinctRanks(old(docs)) ==> DistinctRanks(docs)
    {
      var found := FindOwned(docs, user, id);
      if found.None? {
        return NotFound;
      }
      var k := found.value;
      RemovePreserves(docs, k);
      docs := docs[..k] + docs[k + 1..];
      reply := NoteDeleted;
    }

    /** PATCH /:id/order: shift the ranks between the old and the new position,
        then give the note its new rank. */
    method MoveNote(user: UserId, id: NoteId, newOrder: int) returns (reply: Reply)
      requires Valid()
      modifies this
      ensures Valid()
      ensures FindOwned(old(docs), user, id).None? ==> reply == NotFound && docs == old(docs)
      ensures FindOwned(old(docs), user, id).Some? ==>
        var k := FindOwned(old(docs), user, id).value;
        docs == MoveRanks(old(docs), k, newOrder) && reply == NoteSaved(docs[k])
      ensures DistinctRanks(old(docs)) ==> DistinctRanks(docs)
    {
      var found := FindOwned(docs, user, id);
      if found.None? {
        return NotFound;
      }
      var k := found.value;
      var note := docs[k];
      var oldOrder := note.order;
      ghost var before := docs;
      if newOrder > oldOrder {
        docs := UpdateMany(docs, user, OrderRange(oldOrder, false, newOrder, true), -1);
      } else if newOrder < oldOrder {
        docs := UpdateMany(docs, user, OrderRange(newOrder, true, oldOrder, false), 1);
      }
      assert docs == ShiftBetween(before, user, oldOrder, newOrder);
      note := note.(order := newOrder);
      docs := docs[k := note];
      ShiftThenSet(before, k, newOrder);
      if DistinctRanks(before) {
        MovePreservesDistinctRanks(before, k, newOrder);
      }
      reply := NoteSaved(note);
    }
  }

  /** The `updateMany` the move issues, if any. */
  function ShiftBetween(docs: seq<NoteDoc>, user: UserId, oldOrder: int, newOrder: int): seq<NoteDoc> {
    if newOrder > oldOrder then UpdateMany(docs, user, OrderRange(oldOrder, false, newOrder, true), -1)
    else if newOrder < oldOrder then UpdateMany(docs, user, OrderRange(newOrder, true, oldOrder, false), 1)
    else docs
  }

  /** The move's two writes, the shift and then the note's own rank, give
      MoveRanks, and they keep the collection valid. */
  lemma ShiftThenSet(docs: seq<NoteDoc>, k: nat, newOrder: int)
    requires k < |docs|
    ensures ShiftBetween(docs, docs[k].user, docs[k].order, newOrder)[k := docs[k].(order := newOrder)]
         == MoveRanks(docs, k, newOrder)
    ensures ValidCollection(docs) ==> ValidCollection(MoveRanks(docs, k, newOrder))
  {
    MoveRanksFrame(docs, k, newOrder);
  }

  /** Removing one document keeps ids unique, documents valid and ranks distinct. */
  lemma RemovePreserves(docs: seq<NoteDoc>, k: nat)
    requires k < |docs|
    ensures var r := docs[..k] + docs[k + 1..];
      && (ValidCollection(docs) ==> ValidCollection(r))
      && (DistinctRanks(docs) ==> DistinctRanks(r))
  {
    var r := docs[..k] + docs[k + 1..];
    assert forall i :: 0 <= i < |r| ==> r[i] == docs[if i < k then i else i + 1];
  }

  /** Appending a valid document with a fresh id, ranked above its owner's notes,
      keeps the collection valid and the ranks distinct. */
  lemma AppendPreserves(docs: seq<NoteDoc>, d: NoteDoc)
    requires forall i :: 0 <= i < |docs| ==> docs[i].id != d.id
    requires SchemaValid(d)
    requires forall i :: 0 <= i < |docs| && docs[i].user == d.user ==> docs[i].order < d.order
    ensures ValidCollection(docs) ==> ValidCollection(docs + [d])
    ensures DistinctRanks(docs) ==> DistinctRanks(docs + [d])
  {
    var r := docs + [d];
    assert forall i :: 0 <= i < |docs| ==> r[i] == docs[i];
  }

  /** Replacing a document by a valid one with the same id, owner and rank keeps
      the collection valid and the ranks distinct. */
  lemma ReplacePreserves(docs: seq<NoteDoc>, k: nat, d: NoteDoc)
    requires k < |docs| && SchemaValid(d)
    requires d.id == docs[k].id && d.user == docs[k].user && d.order == docs[k].order
    ensures ValidCollection(docs) ==> ValidCollection(docs[k := d])
    ensures DistinctRanks(docs) ==> DistinctRanks(docs[k := d])
  {
  }
}
