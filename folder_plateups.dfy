/**
 * The plate-ups of one folder: the folder id taken from the route, the photo
 * chooser, the create form, the rename form and the delete confirmation.
 */
module FolderPlateups {
  import opened Wrappers
  import opened Text
  import opened ImageUpload

  /** `id || ''`: the route's folder id, '' when it is missing. */
  function FolderId(param: Option<string>): (id: string)
    ensures param.Some? ==> id == param.value
    ensures param.None? ==> id == ""
  {
    param.GetOr("")
  }

  /** `{ skip: !folderId }`: the folder's plate-ups are not fetched without a folder id. */
  predicate QuerySkipped(folderId: string)
  {
    folderId == ""
  }

  /** A missing route parameter means no fetch. */
  lemma MissingFolderSkipsQuery()
    ensures QuerySkipped(FolderId(None))
  {
  }

  /** A plate-up as its menu hands it to the rename handler. */
  datatype PlateupRef = PlateupRef(id: string, name: string)

  /** What the screen sends to the server. */
  datatype FolderRequest =
    | CreateInFolder(folderId: string, name: string, image: File)
    | RenamePlateup(id: string, name: string)
    | DeletePlateup(id: string)

  /** The screen's state; `preview` stands for the data URL read from the previewed file. */
  class FolderPlateupsScreen {
    const folderId: string
    var showForm: bool
    var title: string
    var fileInput: Option<File>
    var preview: Option<File>
    var error: Option<string>
    var showEditForm: bool
    var editingPlateup: Option<PlateupRef>
    var editTitle: string
    var editError: Option<string>
    var openMenuId: Option<string>
    var showDeleteConfirm: bool
    var plateupToDelete: Option<string>
    var deletingId: Option<string>

    constructor (param: Option<string>)
      ensures folderId == FolderId(param)
      ensures !showForm && title == "" && fileInput == None && preview == None && error == None
      ensures !showEditForm && editingPlateup == None && editTitle == "" && editError == None
      ensures openMenuId == None && !showDeleteConfirm && plateupToDelete == None && deletingId == None
    {
      folderId := FolderId(param);
      showForm := false;
      title := "";
      fileInput := None;
      preview := None;
      error := None;
      showEditForm := false;
      editingPlateup := None;
      editTitle := "";
      editError := None;
      openMenuId := None;
      showDeleteConfirm := false;
      plateupToDelete := None;
      deletingId := None;
    }

    /**
     * `handlePhotoUpload` with the file the input now holds: a failing check
     * clears the preview and sets its message, and a wrong type or size also
     * empties the input; a passing file is previewed.
     */
    method PhotoUpload(chosen: Option<File>)
      modifies this
      ensures error == PhotoError(chosen)
      ensures PhotoError(chosen).None? ==> preview == chosen && fileInput == chosen
      ensures PhotoError(chosen).Some? ==> preview == None && fileInput == None
      ensures title == old(title) && showForm == old(showForm)
    {
      error := None;
      fileInput := chosen;
      if chosen.None? {
        preview := None;
        error := Some(SelectImage);
        return;
      }
      var file := chosen.value;
      if !IsImage(file) {
        preview := None;
        error := Some(OnlyImages);
        fileInput := None;
        return;
      }
      if file.size > MaxFileSize {
        preview := None;
        error := Some(TooLarge());
        fileInput := None;
        return;
      }
      preview := chosen;
    }

    /**
     * `handleSave`: the title, then the input's file; a failing check sets its
     * message and sends nothing. Otherwise the plate-up is created in this
     * folder; success empties and closes the form, failure keeps it open with the
     * failure message.
     */
    method Save(ok: bool) returns (sent: Option<FolderRequest>)
      modifies this
      ensures SaveError(old(title), old(fileInput)).Some? ==>
        sent == None && error == SaveError(old(title), old(fileInput))
      ensures SaveError(old(title), old(fileInput)).None? ==>
        sent == Some(CreateInFolder(folderId, Trim(old(title)), old(fileInput).value))
      ensures SaveError(old(title), old(fileInput)).None? && ok ==>
        preview == None && title == "" && error == None && fileInput == None && !showForm
      ensures SaveError(old(title), old(fileInput)).None? && !ok ==> error == Some(SaveFailed)
      ensures SaveError(old(title), old(fileInput)).Some? || !ok ==>
        preview == old(preview) && title == old(title) && fileInput == old(fileInput) && showForm == old(showForm)
      ensures editingPlateup == old(editingPlateup) && plateupToDelete == old(plateupToDelete)
    {
      var e := SaveError(title, fileInput);
      if e.Some? {
        error := e;
        sent := None;
      } else {
        sent := Some(CreateInFolder(folderId, Trim(title), fileInput.value));
        if ok {
          preview, title, error, fileInput, showForm := None, "", None, None, false;
        } else {
          error := Some(SaveFailed);
        }
      }
    }

    /** `handleDeleteClick`: asks for confirmation. */
    method DeleteClick(id: string)
      modifies this
      ensures plateupToDelete == Some(id) && showDeleteConfirm && openMenuId == None
      ensures deletingId == old(deletingId) && editingPlateup == old(editingPlateup) && title == old(title)
    {
      plateupToDelete := Some(id);
      showDeleteConfirm := true;
      openMenuId := None;
    }

    /**
     * `handleDeleteConfirm`: nothing unless a non-empty id is pending (`!plateupToDelete`
     * also refuses ''); otherwise the delete is sent and, whatever its outcome,
     * the pending id and the deleting marker are cleared.
     */
    method DeleteConfirm() returns (sent: Option<FolderRequest>)
      modifies this
      ensures old(plateupToDelete).None? || old(plateupToDelete).value == "" ==>
        sent == None && plateupToDelete == old(plateupToDelete) && deletingId == old(deletingId) &&
        showDeleteConfirm == old(showDeleteConfirm)
      ensures old(plateupToDelete).Some? && old(plateupToDelete).value != "" ==>
        sent == Some(DeletePlateup(old(plateupToDelete).value)) &&
        plateupToDelete == None && deletingId == None && !showDeleteConfirm
      ensures editingPlateup == old(editingPlateup) && title == old(title) && fileInput == old(fileInput)
    {
      if plateupToDelete.None? || plateupToDelete.value == "" {
        return None;
      }
      var id := plateupToDelete.value;
      deletingId := Some(id);
      showDeleteConfirm := false;
      sent := Some(DeletePlateup(id));
      deletingId := None;
      plateupToDelete := None;
    }

    /** `handleDeleteCancel`. */
    method DeleteCancel()
      modifies this
      ensures !showDeleteConfirm && plateupToDelete == None
      ensures deletingId == old(deletingId) && editingPlateup == old(editingPlateup) && title == old(title)
    {
      showDeleteConfirm := false;
      plateupToDelete := None;
    }

    /** `handleEdit`: the rename form opens on the current name and the menu closes. */
    method Edit(p: PlateupRef)
      modifies this
      ensures editingPlateup == Some(p) && editTitle == p.name && showEditForm && openMenuId == None
      ensures editError == old(editError) && title == old(title) && plateupToDelete == old(plateupToDelete)
    {
      editingPlateup := Some(p);
      editTitle := p.name;
      showEditForm := true;
      openMenuId := None;
    }

    /**
     * `handleEditSave`: nothing without a plate-up being edited; a blank title is
     * refused; otherwise the trimmed title is sent, and success closes and clears
     * the rename form.
     */
    method EditSave(ok: bool) returns (sent: Option<FolderRequest>)
      modifies this
      ensures old(editingPlateup).None? || IsBlank(old(editTitle)) ==> sent == None
      ensures old(editingPlateup).None? ==> editError == old(editError)
      ensures old(editingPlateup).Some? && IsBlank(old(editTitle)) ==> editError == Some(TitleRequired)
      ensures old(editingPlateup).Some? && !IsBlank(old(editTitle)) ==>
        sent == Some(RenamePlateup(old(editingPlateup).value.id, Trim(old(editTitle))))
      ensures old(editingPlateup).Some? && !IsBlank(old(editTitle)) && ok ==>
        !showEditForm && editingPlateup == None && editTitle == "" && editError == None
      ensures old(editingPlateup).Some? && !IsBlank(old(editTitle)) && !ok ==>
        editError == Some("Update plateup failed. Please try again.")
      ensures old(editingPlateup).None? || IsBlank(old(editTitle)) || !ok ==>
        showEditForm == old(showEditForm) && editingPlateup == old(editingPlateup) && editTitle == old(editTitle)
      ensures title == old(title) && fileInput == old(fileInput) && plateupToDelete == old(plateupToDelete)
    {
      if editingPlateup.None? {
        return None;
      }
      var p, name := editingPlateup.value, Trim(editTitle);
      editError := None;
      if name == "" {
        editError := Some(TitleRequired);
        return None;
      }
      sent := Some(RenamePlateup(p.id, name));
      if ok {
        showEditForm := false;
        editingPlateup := None;
        editTitle := "";
      } else {
        editError := Some("Update plateup failed. Please try again.");
      }
    }

    /** `handleEditCancel`. */
    method EditCancel()
      modifies this
      ensures !showEditForm && editingPlateup == None && editTitle == "" && editError == None
      ensures title == old(title) && fileInput == old(fileInput) && plateupToDelete == old(plateupToDelete)
    {
      showEditForm := false;
      editingPlateup := None;
      editTitle := "";
      editError := None;
    }
  }
}
