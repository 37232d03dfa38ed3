/**
 * The plate-up standards screen: the name-sorted gallery with its sort toggle,
 * the photo chooser, the create form, the rename form and the delete
 * confirmation.
 */
module PlateupStandards {
  import opened Wrappers
  import opened Text
  import opened Domain
  import opened Sorting
  import opened ImageUpload

  datatype SortOrder = Asc | Desc

  /** The sort toggle button. */
  function Toggle(o: SortOrder): (r: SortOrder)
    ensures r != o
  {
    if o == Asc then Desc else Asc
  }

  lemma ToggleTwice(o: SortOrder)
    ensures Toggle(Toggle(o)) == o
  {
  }

  /** `a.name.localeCompare(b.name) < 0`. */
  function NameBefore(a: Plateup, b: Plateup): bool
  {
    LexLess(a.name, b.name)
  }

  /** `b.name.localeCompare(a.name) < 0`. */
  function NameAfter(a: Plateup, b: Plateup): bool
  {
    LexLess(b.name, a.name)
  }

  lemma NameOrdersStrict()
    ensures StrictOrder(NameBefore) && StrictOrder(NameAfter)
  {
    forall a: Plateup, b: Plateup
      ensures NameBefore(a, b) ==> !NameBefore(b, a)
    {
      LexLessAsymmetric(a.name, b.name);
    }
    forall a: Plateup, b: Plateup
      ensures NameAfter(a, b) ==> !NameAfter(b, a)
    {
      LexLessAsymmetric(b.name, a.name);
    }
    forall a: Plateup, b: Plateup, c: Plateup
      ensures NameBefore(a, b) && NameBefore(b, c) ==> NameBefore(a, c)
    {
      LexLessTransitive(a.name, b.name, c.name);
    }
    forall a: Plateup, b: Plateup, c: Plateup
      ensures NameAfter(a, b) && NameAfter(b, c) ==> NameAfter(a, c)
    {
      LexLessTransitive(c.name, b.name, a.name);
    }
  }

  /** `sortedPlateups`: a sorted copy, ascending or descending by name; no data gives none. */
  function SortedPlateups(plateups: Option<seq<Plateup>>, order: SortOrder): (r: seq<Plateup>)
    ensures plateups.None? ==> r == []
    ensures plateups.Some? ==> multiset(r) == multiset(plateups.value)
  {
    if plateups.None? then []
    else if order == Asc then SortBy(plateups.value, NameBefore)
    else SortBy(plateups.value, NameAfter)
  }

  /** Ascending puts no name before a name that precedes it; descending the reverse. */
  lemma SortedPlateupsOrdered(plateups: seq<Plateup>, order: SortOrder)
    ensures var r := SortedPlateups(Some(plateups), order);
      forall i, j :: 0 <= i < j < |r| ==>
        if order == Asc then !LexLess(r[j].name, r[i].name) else !LexLess(r[i].name, r[j].name)
  {
    NameOrdersStrict();
    if order == Asc {
      SortBySorted(plateups, NameBefore);
    } else {
      SortBySorted(plateups, NameAfter);
    }
  }

  /** A plate-up as its menu hands it to the handlers. */
  datatype PlateupRef = PlateupRef(id: string, name: string)

  /** What the screen sends to the server. */
  datatype PlateupRequest =
    | CreatePlateup(name: string, image: File)
    | RenamePlateup(id: string, name: string)
    | DeletePlateup(id: string)

  /** The screen's state; `preview` stands for the data URL read from the previewed file. */
  class PlateupStandardsScreen {
    var sortOrder: SortOrder
    var showForm: bool
    var title: string
    var fileInput: Option<File>
    var preview: Option<File>
    var error: Option<string>
    var showEditForm: bool
    var editingPlateup: Option<PlateupRef>
    var editTitle: string
    var editError: Option<string>
    var openMenuId: Option<string>
    var showDeleteConfirm: bool
    var plateupToDelete: Option<PlateupRef>
    var deletingId: Option<string>

    constructor ()
      ensures sortOrder == Asc && !showForm && title == "" && fileInput == None && preview == None && error == None
      ensures !showEditForm && editingPlateup == None && editTitle == "" && editError == None
      ensures openMenuId == None && !showDeleteConfirm && plateupToDelete == None && deletingId == None
    {
      sortOrder := Asc;
      showForm := false;
      title := "";
      fileInput := None;
      preview := None;
      error := None;
      showEditForm := false;
      editingPlateup := None;
      editTitle := "";
      editError := None;
      openMenuId := None;
      showDeleteConfirm := false;
      plateupToDelete := None;
      deletingId := None;
    }

    /** The sort button. */
    method ToggleSort()
      modifies this
      ensures sortOrder == Toggle(old(sortOrder))
      ensures showForm == old(showForm) && title == old(title) && fileInput == old(fileInput)
      ensures preview == old(preview) && error == old(error)
    {
      sortOrder := Toggle(sortOrder);
    }

    /**
     * `handlePhotoUpload` with the file the input now holds: a failing check
     * clears the preview and sets its message, and a wrong type or size also
     * empties the input; a passing file is previewed.
     */
    method PhotoUpload(chosen: Option<File>)
      modifies this
      ensures error == PhotoError(chosen)
      ensures PhotoError(chosen).None? ==> preview == chosen && fileInput == chosen
      ensures PhotoError(chosen).Some? ==> preview == None && fileInput == None
      ensures title == old(title) && showForm == old(showForm) && sortOrder == old(sortOrder)
    {
      error := None;
      fileInput := chosen;
      if chosen.None? {
        preview := None;
        error := Some(SelectImage);
        return;
      }
      var file := chosen.value;
      if !IsImage(file) {
        preview := None;
        error := Some(OnlyImages);
        fileInput := None;
        return;
      }
      if file.size > MaxFileSize {
        preview := None;
        error := Some(TooLarge());
        fileInput := None;
        return;
      }
      preview := chosen;
    }

    /**
     * `handleSave`: the title, then the input's file; a failing check sets its
     * message and sends nothing. Otherwise the trimmed title and the file are
     * sent; success empties and closes the form, failure keeps it open with the
     * failure message.
     */
    method Save(ok: bool) returns (sent: Option<PlateupRequest>)
      modifies this
      ensures SaveError(old(title), old(fileInput)).Some? ==>
        sent == None && error == SaveError(old(title), old(fileInput))
      ensures SaveError(old(title), old(fileInput)).None? ==>
        sent == Some(CreatePlateup(Trim(old(title)), old(fileInput).value))
      ensures SaveError(old(title), old(fileInput)).None? && ok ==>
        preview == None && title == "" && error == None && fileInput == None && !showForm
      ensures SaveError(old(title), old(fileInput)).None? && !ok ==> error == Some(SaveFailed)
      ensures SaveError(old(title), old(fileInput)).Some? || !ok ==>
        preview == old(preview) && title == old(title) && fileInput == old(fileInput) && showForm == old(showForm)
      ensures sortOrder == old(sortOrder) && editingPlateup == old(editingPlateup) && plateupToDelete == old(plateupToDelete)
    {
      var e := SaveError(title, fileInput);
      if e.Some? {
        error := e;
        sent := None;
      } else {
        sent := Some(CreatePlateup(Trim(title), fileInput.value));
        if ok {
          preview, title, error, fileInput, showForm := None, "", None, None, false;
        } else {
          error := Some(SaveFailed);
        }
      }
    }

    /** `handleEdit`: the rename form opens on the current name and the menu closes. */
    method Edit(p: PlateupRef)
      modifies this
      ensures editingPlateup == Some(p) && editTitle == p.name && showEditForm && openMenuId == None
      ensures editError == old(editError) && title == old(title) && plateupToDelete == old(plateupToDelete)
    {
      editingPlateup := Some(p);
      editTitle := p.name;
      showEditForm := true;
      openMenuId := None;
    }

    /**
     * `handleEditSave`: nothing without a plate-up being edited; a blank title is
     * refused; otherwise the trimmed title is sent, and success closes and clears
     * the rename form.
     */
    method EditSave(ok: bool) returns (sent: Option<PlateupRequest>)
      modifies this
      ensures old(editingPlateup).None? || IsBlank(old(editTitle)) ==> sent == None
      ensures old(editingPlateup).None? ==> editError == old(editError)
      ensures old(editingPlateup).Some? && IsBlank(old(editTitle)) ==> editError == Some(TitleRequired)
      ensures old(editingPlateup).Some? && !IsBlank(old(editTitle)) ==>
        sent == Some(RenamePlateup(old(editingPlateup).value.id, Trim(old(editTitle))))
      ensures old(editingPlateup).Some? && !IsBlank(old(editTitle)) && ok ==>
        !showEditForm && editingPlateup == None && editTitle == "" && editError == None
      ensures old(editingPlateup).Some? && !IsBlank(old(editTitle)) && !ok ==>
        editError == Some("Update plateup failed. Please try again.")
      ensures old(editingPlateup).None? || IsBlank(old(editTitle)) || !ok ==>
        showEditForm == old(showEditForm) && editingPlateup == old(editingPlateup) && editTitle == old(editTitle)
      ensures title == old(title) && fileInput == old(fileInput) && plateupToDelete == old(plateupToDelete)
    {
      if editingPlateup.None? {
        return None;
      }
      var p, name := editingPlateup.value, Trim(editTitle);
      editError := None;
      if name == "" {
        editError := Some(TitleRequired);
        return None;
      }
      sent := Some(RenamePlateup(p.id, name));
      if ok {
        showEditForm := false;
        editingPlateup := None;
        editTitle := "";
      } else {
        editError := Some("Update plateup failed. Please try again.");
      }
    }

    /** `handleEditCancel`. */
    method EditCancel()
      modifies this
      ensures !showEditForm && editingPlateup == None && editTitle == "" && editError == None
      ensures title == old(title) && fileInput == old(fileInput) && plateupToDelete == old(plateupToDelete)
    {
      showEditForm := false;
      editingPlateup := None;
      editTitle := "";
      editError := None;
    }

    /** `handleDeletePlateupClick`: asks for confirmation. */
    method DeleteClick(p: PlateupRef)
      modifies this
      ensures plateupToDelete == Some(p) && showDeleteConfirm && openMenuId == None
      ensures deletingId == old(deletingId) && editingPlateup == old(editingPlateup) && title == old(title)
    {
      plateupToDelete := Some(p);
      showDeleteConfirm := true;
      openMenuId := None;
    }

    /**
     * `handleDeletePlateupConfirm`: nothing without a pending plate-up; otherwise
     * the delete is sent and, whatever its outcome, the pending plate-up and the
     * deleting marker are cleared.
     */
    method DeleteConfirm() returns (sent: Option<PlateupRequest>)
      modifies this
      ensures old(plateupToDelete).None? ==> sent == None && showDeleteConfirm == old(showDeleteConfirm)
      ensures old(plateupToDelete).Some? ==> sent == Some(DeletePlateup(old(plateupToDelete).value.id)) && !showDeleteConfirm
      ensures old(plateupToDelete).None? ==> deletingId == old(deletingId)
      ensures old(plateupToDelete).Some? ==> deletingId == None
      ensures plateupToDelete == None
      ensures editingPlateup == old(editingPlateup) && title == old(title) && fileInput == old(fileInput)
    {
      if plateupToDelete.None? {
        return None;
      }
      var p := plateupToDelete.value;
      deletingId := Some(p.id);
      showDeleteConfirm := false;
      sent := Some(DeletePlateup(p.id));
      deletingId := None;
      plateupToDelete := None;
    }

    /** `handleDeletePlateupCancel`. */
    method DeleteCancel()
      modifies this
      ensures !showDeleteConfirm && plateupToDelete == None
      ensures deletingId == old(deletingId) && editingPlateup == old(editingPlateup) && title == old(title)
    {
      showDeleteConfirm := false;
      plateupToDelete := None;
    }
  }
}
