/**
 * The plate-up folder list: the create/rename form with its name checks and the
 * delete confirmation.
 */
module PlateupFolderList {
  import opened Wrappers
  import opened Text

  const NameRequired := "Name is required"
  const NameLength := "Name must be between 2 and 100 characters"

  /** The checks of `handleSave`: a non-blank name, then a trimmed length from 2 to 100. */
  function FolderNameError(name: string): (e: Option<string>)
    ensures e.None? <==> 2 <= |Trim(name)| <= 100
    ensures IsBlank(name) ==> e == Some(NameRequired)
    ensures !IsBlank(name) && e.Some? ==> e == Some(NameLength)
  {
    var t := Trim(name);
    if t == "" then Some(NameRequired)
    else if |t| < 2 || |t| > 100 then Some(NameLength)
    else None
  }

  /** Surrounding whitespace does not count towards the length. */
  lemma FolderNameIgnoresPadding(name: string)
    ensures FolderNameError(" " + name + " ") == FolderNameError(name)
  {
    var padded := " " + name + " ";
    if IsBlank(name) {
      assert IsBlank(padded);
    } else {
      var i :| 0 <= i < |name| && !IsSpace(name[i]);
      assert padded[i + 1] == name[i];
    }
    PaddedTrim(name);
  }

  /** Trimming ignores one space on each side. */
  lemma PaddedTrim(name: string)
    ensures Trim(" " + name + " ") == Trim(name)
  {
    var padded := " " + name + " ";
    assert padded[1..] == name + " ";
    assert TrimStart(padded) == TrimStart(name + " ");
    TrimStartAppendSpace(name);
    var t := TrimStart(name);
    assert (t + " ")[..|t|] == t;
    assert TrimEnd(t + " ") == TrimEnd(t);
  }

  /** Trimming the start of a string ending in a space: the space stays at the end unless all is blank. */
  lemma {:induction false} TrimStartAppendSpace(s: string)
    ensures TrimStart(s + " ") == (if IsBlank(s) then "" else TrimStart(s) + " ")
  {
    if s != [] {
      assert (s + " ")[1..] == s[1..] + " ";
      TrimStartAppendSpace(s[1..]);
      if IsSpace(s[0]) {
        assert IsBlank(s) <==> IsBlank(s[1..]);
      }
    } else {
      assert (s + " ")[1..] == "";
    }
  }

  /** A folder as the list hands it to the handlers. */
  datatype FolderRef = FolderRef(id: string, name: string)

  /** What the list sends to the server. */
  datatype FolderRequest =
    | UpdateFolder(id: string, name: string)
    | CreateFolder(name: string)
    | DeleteFolder(id: string)

  /** The list's state. */
  class FolderListScreen {
    var showForm: bool
    var editingFolder: Option<FolderRef>
    var name: string
    var error: Option<string>
    var openMenuId: Option<string>
    var deletingId: Option<string>
    var showDeleteConfirm: bool
    var folderToDelete: Option<FolderRef>

    constructor ()
      ensures !showForm && editingFolder == None && name == "" && error == None
      ensures openMenuId == None && deletingId == None && !showDeleteConfirm && folderToDelete == None
    {
      showForm := false;
      editingFolder := None;
      name := "";
      error := None;
      openMenuId := None;
      deletingId := None;
      showDeleteConfirm := false;
      folderToDelete := None;
    }

    /**
     * `handleSave`: a failing name check sets its message and sends nothing;
     * otherwise the trimmed name updates the folder being edited or creates a
     * new one. Success closes and clears the form; failure only shows a toast.
     */
    method Save(ok: bool) returns (sent: Option<FolderRequest>, toast: Option<string>)
      modifies this
      ensures error == FolderNameError(old(name))
      ensures FolderNameError(old(name)).Some? ==> sent == None && toast == None
      ensures FolderNameError(old(name)).None? && old(editingFolder).Some? ==>
        sent == Some(UpdateFolder(old(editingFolder).value.id, Trim(old(name)))) &&
        toast == Some(if ok then "Folder updated" else "Update folder failed")
      ensures FolderNameError(old(name)).None? && old(editingFolder).None? ==>
        sent == Some(CreateFolder(Trim(old(name)))) &&
        toast == Some(if ok then "Folder created" else "Create folder failed")
      ensures FolderNameError(old(name)).None? && ok ==> !showForm && editingFolder == None && name == ""
      ensures FolderNameError(old(name)).Some? || !ok ==>
        showForm == old(showForm) && editingFolder == old(editingFolder) && name == old(name)
      ensures folderToDelete == old(folderToDelete) && deletingId == old(deletingId)
    {
      var e := FolderNameError(name);
      error := None;
      if e.Some? {
        error := e;
        return None, None;
      }
      var trimmed, editing := Trim(name), editingFolder;
      if editing.Some? {
        sent := Some(UpdateFolder(editing.value.id, trimmed));
        toast := Some(if ok then "Folder updated" else "Update folder failed");
      } else {
        sent := Some(CreateFolder(trimmed));
        toast := Some(if ok then "Folder created" else "Create folder failed");
      }
      if ok {
        showForm := false;
        editingFolder := None;
        name := "";
      }
    }

    /** `handleEdit`: the form opens on the folder's current name. */
    method Edit(folder: FolderRef)
      modifies this
      ensures editingFolder == Some(folder) && name == folder.name && showForm && openMenuId == None
      ensures error == old(error) && folderToDelete == old(folderToDelete)
    {
      editingFolder := Some(folder);
      name := folder.name;
      showForm := true;
      openMenuId := None;
    }

    /** `handleCreateNew`: an empty form for a new folder. */
    method CreateNew()
      modifies this
      ensures editingFolder == None && name == "" && showForm
      ensures error == old(error) && folderToDelete == old(folderToDelete) && openMenuId == old(openMenuId)
    {
      editingFolder := None;
      name := "";
      showForm := true;
    }

    /** `handleCloseForm`. */
    method CloseForm()
      modifies this
      ensures !showForm && editingFolder == None && name == "" && error == None
      ensures folderToDelete == old(folderToDelete) && openMenuId == old(openMenuId)
    {
      showForm := false;
      editingFolder := None;
      name := "";
      error := None;
    }

    /** `handleDeleteClick`: asks for confirmation. */
    method DeleteClick(folder: FolderRef)
      modifies this
      ensures folderToDelete == Some(folder) && showDeleteConfirm && openMenuId == None
      ensures deletingId == old(deletingId) && editingFolder == old(editingFolder) && name == old(name)
    {
      folderToDelete := Some(folder);
      showDeleteConfirm := true;
      openMenuId := None;
    }

    /**
     * `handleDeleteConfirm`: nothing without a pending folder; otherwise the
     * delete is sent and, whatever its outcome, the pending folder and the
     * deleting marker are cleared.
     */
    method DeleteConfirm() returns (sent: Option<FolderRequest>)
      modifies this
      ensures old(folderToDelete).None? ==> sent == None && showDeleteConfirm == old(showDeleteConfirm)
      ensures old(folderToDelete).None? ==> deletingId == old(deletingId)
      ensures old(folderToDelete).Some? ==>
        sent == Some(DeleteFolder(old(folderToDelete).value.id)) && !showDeleteConfirm && deletingId == None
      ensures folderToDelete == None
      ensures editingFolder == old(editingFolder) && name == old(name) && showForm == old(showForm)
    {
      if folderToDelete.None? {
        return None;
      }
      var folder := folderToDelete.value;
      deletingId := Some(folder.id);
      showDeleteConfirm := false;
      sent := Some(DeleteFolder(folder.id));
      deletingId := None;
      folderToDelete := None;
    }

    /** `handleDeleteCancel`. */
    method DeleteCancel()
      modifies this
      ensures !showDeleteConfirm && folderToDelete == None
      ensures deletingId == old(deletingId) && editingFolder == old(editingFolder) && name == old(name)
    {
      showDeleteConfirm := false;
      folderToDelete := None;
    }
  }
}
