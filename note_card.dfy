/** One note card (frontend/src/components/NoteCard.tsx): client-side
    validation of an edit, the fold of the server's validation errors, the
    card's theme defaults, the status menu, and the card's own state. */
module NoteCard {
  import opened Common
  import opened Text
  import opened ClientTypes

  /** One entry of the server's `errors` array. */
  datatype ValidationError = ValidationError(path: string, msg: string)

  /** What a failed request carries: `response.data.errors`, when present. */
  datatype ApiError = ApiError(errors: Option<seq<ValidationError>>)

  /** The errors `validateNote` records for an edit: a key for each blank
      field, and nothing else. */
  function NoteErrors(title: string, content: string): (r: map<string, string>)
    ensures "title" in r <==> AllSpace(title)
    ensures "content" in r <==> AllSpace(content)
    ensures r.Keys <= {"title", "content"}
    ensures "title" in r ==> r["title"] == "Title is required"
    ensures "content" in r ==> r["content"] == "Content is required"
    ensures forall field :: field in r ==> Shows(r, field)
  {
    TrimEmptyIffBlank(title);
    TrimEmptyIffBlank(content);
    var withTitle: map<string, string> := if Trim(title) == [] then map["title" := "Title is required"] else map[];
    if Trim(content) == [] then withTitle["content" := "Content is required"] else withTitle
  }

  /** Validation passes exactly when neither field is blank. */
  lemma NoteErrorsEmptyIff(title: string, content: string)
    ensures NoteErrors(title, content) == map[] <==> !AllSpace(title) && !AllSpace(content)
  {
    if AllSpace(title) {
      assert "title" in NoteErrors(title, content);
    } else if AllSpace(content) {
      assert "content" in NoteErrors(title, content);
    }
  }

  /** The `reduce` over the server's errors: each entry writes its message
      under its path, so the keys are exactly the paths mentioned. */
  function FoldServerErrors(errs: seq<ValidationError>): (m: map<string, string>)
    ensures m.Keys == set e | e in errs :: e.path
    decreases |errs|
  {
    if errs == [] then map[]
    else
      var last := errs[|errs| - 1];
      var m := FoldServerErrors(errs[..|errs| - 1])[last.path := last.msg];
      assert errs == errs[..|errs| - 1] + [last];
      m
  }

  /** A path's message is the one from its last entry: a later entry for the
      same path overwrites an earlier one. */
  lemma {:induction false} FoldLastWins(errs: seq<ValidationError>, i: nat)
    requires i < |errs|
    requires forall j :: i < j < |errs| ==> errs[j].path != errs[i].path
    ensures errs[i].path in FoldServerErrors(errs)
    ensures FoldServerErrors(errs)[errs[i].path] == errs[i].msg
    decreases |errs|
  {
    if i < |errs| - 1 {
      var init := errs[..|errs| - 1];
      FoldLastWins(init, i);
      assert init[i] == errs[i];
    }
  }

  /** `errors[field]` is truthy: the field has a non-empty message, which the
      text field shows as its helper text. Setting the key to `undefined`
      is modelled by removing it. */
  predicate Shows(errors: map<string, string>, field: string) {
    field in errors && errors[field] != ""
  }

  /** The card's own default theme; its radius (16) differs from the one the
      server stores by default (8). */
  const CardDefaultTheme := Theme(Some("#ffffff"), Some("#000000"), Some(false), None, None, Some(16), Some(4))

  /** `{ ...defaultTheme, ...note.theme }`: each key the note's theme carries
      wins, the card default fills the rest. */
  function EffectiveTheme(n: Note): (t: Theme)
    ensures t.backgroundColor == if n.theme.backgroundColor.Some? then n.theme.backgroundColor else Some("#ffffff")
    ensures t.textColor == if n.theme.textColor.Some? then n.theme.textColor else Some("#000000")
    ensures t.useGradient == if n.theme.useGradient.Some? then n.theme.useGradient else Some(false)
    ensures t.gradientStart == n.theme.gradientStart && t.gradientEnd == n.theme.gradientEnd
    ensures t.borderRadius == if n.theme.borderRadius.Some? then n.theme.borderRadius else Some(16)
    ensures t.elevation == if n.theme.elevation.Some? then n.theme.elevation else Some(4)
  {
    Overlay(CardDefaultTheme, n.theme)
  }

  datatype MenuItem = EditItem | ThemeItem | ResetThemeItem | CompleteItem | ArchiveItem | UnarchiveItem | DeleteItem

  /** The card menu, in display order. */
  function MenuItems(status: Status): (items: seq<MenuItem>)
    ensures CompleteItem in items <==> status != Completed
    ensures ArchiveItem in items <==> status != Archived
    ensures UnarchiveItem in items <==> status == Archived
    ensures 4 <= |items| && items[..3] == [EditItem, ThemeItem, ResetThemeItem] && items[|items| - 1] == DeleteItem
  {
    [EditItem, ThemeItem, ResetThemeItem]
    + (if status != Completed then [CompleteItem] else [])
    + (if status != Archived then [ArchiveItem] else [])
    + (if status == Archived then [UnarchiveItem] else [])
    + [DeleteItem]
  }

  /** The status a menu entry asks for, if it is a status entry. */
  function Target(item: MenuItem): Option<Status> {
    match item
    case CompleteItem => Some(Completed)
    case ArchiveItem => Some(Archived)
    case UnarchiveItem => Some(Active)
    case _ => None
  }

  /** Every status entry the menu shows asks for a status other than the
      current one, and every other status is reachable from the menu except
      'active' from 'completed'. */
  lemma MenuChangesStatus(status: Status)
    ensures forall item :: item in MenuItems(status) && Target(item).Some? ==> Target(item).value != status
    ensures forall s :: s != status && !(status == Completed && s == Active) ==>
      exists item :: item in MenuItems(status) && Target(item) == Some(s)
  {
    var items := MenuItems(status);
    forall s | s != status && !(status == Completed && s == Active)
      ensures exists item :: item in items && Target(item) == Some(s)
    {
      match s
      case Completed =>
        assert CompleteItem in items && Target(CompleteItem) == Some(s);
      case Archived =>
        assert ArchiveItem in items && Target(ArchiveItem) == Some(s);
      case Active =>
        assert status == Archived;
        assert UnarchiveItem in items && Target(UnarchiveItem) == Some(s);
    }
  }

  /** The card's state: the note prop, the edit buffer, and the menu, delete
      dialog and colour dialog flags. */
  class Card {
    const note: Note
    var isEditing: bool
    var editedNote: Note
    var menuOpen: bool
    var isDeleting: bool
    var isColorPickerOpen: bool
    var errors: map<string, string>

    constructor (note: Note)
      ensures this.note == note && editedNote == note
      ensures !isEditing && !menuOpen && !isDeleting && !isColorPickerOpen && errors == map[]
    {
      this.note := note;
      editedNote := note;
      isEditing, menuOpen, isDeleting, isColorPickerOpen := false, false, false, false;
      errors := map[];
    }

    method HandleEdit()
      modifies this
      ensures isEditing && !menuOpen
      ensures editedNote == old(editedNote) && errors == old(errors) && isDeleting == old(isDeleting)
      ensures isColorPickerOpen == old(isColorPickerOpen)
    {
      isEditing := true;
      menuOpen := false;
    }

    /** The title field's change handler: a title error that is showing (a
        non-empty message) goes away as soon as the user types. */
    method EditTitle(value: string)
      modifies this`editedNote, this`errors
      ensures editedNote == old(editedNote).(title := value)
      ensures errors == if Shows(old(errors), "title") then old(errors) - {"title"} else old(errors)
    {
      editedNote := editedNote.(title := value);
      if Shows(errors, "title") {
        errors := errors - {"title"};
      }
    }

    /** The content field's change handler, clearing a showing content error
        in the same way. */
    method EditContent(value: string)
      modifies this`editedNote, this`errors
      ensures editedNote == old(editedNote).(content := value)
      ensures errors == if Shows(old(errors), "content") then old(errors) - {"content"} else old(errors)
    {
      editedNote := editedNote.(content := value);
      if Shows(errors, "content") {
        errors := errors - {"content"};
      }
    }

    /** `validateNote`: records the errors and reports whether there are none. */
    method ValidateNote() returns (ok: bool)
      modifies this`errors
      ensures errors == NoteErrors(editedNote.title, editedNote.content)
      ensures ok <==> !AllSpace(editedNote.title) && !AllSpace(editedNote.content)
    {
      var newErrors: map<string, string> := map[];
      if Trim(editedNote.title) == [] {
        newErrors := newErrors["title" := "Title is required"];
      }
      if Trim(editedNote.content) == [] {
        newErrors := newErrors["content" := "Content is required"];
      }
      TrimEmptyIffBlank(editedNote.title);
      TrimEmptyIffBlank(editedNote.content);
      errors := newErrors;
      NoteErrorsEmptyIff(editedNote.title, editedNote.content);
      ok := |newErrors| == 0;
    }

    /** `handleSave`: sends only title and content, and only when validation
        passes; `response` is what the update call then did. */
    method HandleSave(response: Result<(), ApiError>) returns (sent: Option<NotePatch>)
      modifies this`errors, this`isEditing
      ensures sent.Some? <==> !AllSpace(editedNote.title) && !AllSpace(editedNote.content)
      ensures sent.Some? ==> sent.value == EmptyPatch.(title := Some(editedNote.title), content := Some(editedNote.content))
      ensures sent.None? ==> errors == NoteErrors(editedNote.title, editedNote.content) && isEditing == old(isEditing)
      ensures sent.Some? && response.Ok? ==> !isEditing && errors == map[]
      ensures sent.Some? && response.Err? ==>
        && isEditing == old(isEditing)
        && errors == if response.error.errors.Some? then FoldServerErrors(response.error.errors.value) else map[]
    {
      var ok := ValidateNote();
      if !ok {
        return None;
      }
      NoteErrorsEmptyIff(editedNote.title, editedNote.content);
      sent := Some(EmptyPatch.(title := Some(editedNote.title), content := Some(editedNote.content)));
      if response.Ok? {
        isEditing := false;
        errors := map[];
      } else if response.error.errors.Some? {
        errors := FoldServerErrors(response.error.errors.value);
      }
    }

    /** `handleCancel`: the edit buffer returns to the note. */
    method HandleCancel()
      modifies this`editedNote, this`isEditing
      ensures editedNote == note && !isEditing
    {
      editedNote := note;
      isEditing := false;
    }

    method HandleMenuOpen()
      modifies this`menuOpen
      ensures menuOpen
    {
      menuOpen := true;
    }

    method HandleMenuClose()
      modifies this`menuOpen
      ensures !menuOpen
    {
      menuOpen := false;
    }

    /** `handleStatusChange`: sends only the status; the menu closes once the
        update succeeds. */
    method HandleStatusChange(status: Status, response: Result<(), HttpError>) returns (sent: NotePatch)
      modifies this`menuOpen
      ensures sent == EmptyPatch.(status := Some(status))
      ensures menuOpen == (response.Err? && old(menuOpen))
    {
      sent := EmptyPatch.(status := Some(status));
      if response.Ok? {
        menuOpen := false;
      }
    }

    method HandleDeleteClick()
      modifies this`isDeleting, this`menuOpen
      ensures isDeleting && !menuOpen
    {
      isDeleting := true;
      menuOpen := false;
    }

    /** `handleDeleteConfirm`: the dialog closes only after the delete succeeds. */
    method HandleDeleteConfirm(response: Result<(), HttpError>)
      modifies this`isDeleting
      ensures isDeleting == (response.Err? && old(isDeleting))
    {
      if response.Ok? {
        isDeleting := false;
      }
    }

    method HandleDeleteCancel()
      modifies this`isDeleting
      ensures !isDeleting
    {
      isDeleting := false;
    }

    /** `handleResetTheme`: sends the card default theme; the menu closes once
        that succeeds. */
    method HandleResetTheme(response: Result<(), HttpError>) returns (sent: Theme)
      modifies this`menuOpen
      ensures sent == CardDefaultTheme
      ensures menuOpen == (response.Err? && old(menuOpen))
    {
      sent := CardDefaultTheme;
      if response.Ok? {
        menuOpen := false;
      }
    }

    method OpenColorPicker()
      modifies this`isColorPickerOpen
      ensures isColorPickerOpen
    {
      isColorPickerOpen := true;
    }

    method CloseColorPicker()
      modifies this`isColorPickerOpen
      ensures !isColorPickerOpen
    {
      isColorPickerOpen := false;
    }
  }

  /** A save blocked by a blank title shows the title error; typing into the
      title field removes it, and the content error stays exactly when the
      content is blank too. */
  method TypingClearsTitleError(n: Note, value: string)
    returns (blocked: bool, titleErrorAfter: bool, contentErrorAfter: bool)
    requires AllSpace(n.title)
    ensures blocked && !titleErrorAfter
    ensures contentErrorAfter <==> AllSpace(n.content)
  {
    var card := new Card(n);
    card.HandleEdit();
    var ok := card.ValidateNote();
    blocked := !ok && "title" in card.errors;
    card.EditTitle(value);
    titleErrorAfter := "title" in card.errors;
    contentErrorAfter := "content" in card.errors;
  }
}
