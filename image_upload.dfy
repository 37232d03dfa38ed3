/**
 * The photo checks both plate-up screens apply, on choosing a file and again on
 * saving: a file must be present, have an image MIME type and weigh at most
 * 5 MiB, checked in that order.
 */
module ImageUpload {
  import opened Wrappers
  import opened Text

  /** A file from the file input: its name, MIME type and size in bytes. */
  datatype File = File(name: string, mime: string, size: nat)

  const MaxFileSizeMb: nat := 5

  /** `MAX_FILE_SIZE_MB * 1024 * 1024` bytes. */
  const MaxFileSize: nat := MaxFileSizeMb * 1024 * 1024

  const SelectImage := "Please select an image file."
  const OnlyImages := "Only image files are allowed."
  const TitleRequired := "Title is required."
  const SaveFailed := "Save plateup failed. Please try again."

  /** `Image must be less than ${MAX_FILE_SIZE_MB}MB.` */
  function TooLarge(): (message: string)
    ensures message == "Image must be less than 5MB."
  {
    "Image must be less than " + NatToString(MaxFileSizeMb) + "MB."
  }

  /** `file.type.startsWith('image/')`. */
  predicate IsImage(f: File)
  {
    StartsWith(f.mime, "image/")
  }

  /** The first failing photo check, if any: missing file, then type, then size. */
  function PhotoError(file: Option<File>): (e: Option<string>)
    ensures e.None? <==> file.Some? && IsImage(file.value) && file.value.size <= MaxFileSize
    ensures e.Some? ==> e.value in {SelectImage, OnlyImages, TooLarge()}
  {
    if file.None? then Some(SelectImage)
    else if !IsImage(file.value) then Some(OnlyImages)
    else if file.value.size > MaxFileSize then Some(TooLarge())
    else None
  }

  /** A missing file and a non-image are each reported as such, whatever else holds. */
  lemma PhotoErrorOrder(file: Option<File>)
    ensures file.None? ==> PhotoError(file) == Some(SelectImage)
    ensures file.Some? && !IsImage(file.value) ==> PhotoError(file) == Some(OnlyImages)
    ensures file.Some? && IsImage(file.value) ==> (PhotoError(file) == Some(TooLarge()) <==> file.value.size > MaxFileSize)
  {
  }

  /** The limit is inclusive: an image of exactly 5 MiB passes, one byte more does not. */
  lemma SizeLimitInclusive(name: string, mime: string)
    requires StartsWith(mime, "image/")
    ensures PhotoError(Some(File(name, mime, 5242880))) == None
    ensures PhotoError(Some(File(name, mime, 5242881))) == Some(TooLarge())
  {
  }

  /** The checks of Save: the trimmed title first, then the photo checks on the input's file. */
  function SaveError(title: string, file: Option<File>): (e: Option<string>)
    ensures IsBlank(title) ==> e == Some(TitleRequired)
    ensures !IsBlank(title) ==> e == PhotoError(file)
  {
    if IsBlank(title) then Some(TitleRequired) else PhotoError(file)
  }

  /** Save goes ahead exactly with a non-blank title and a file that passes the photo checks. */
  lemma SaveAccepts(title: string, file: Option<File>)
    ensures SaveError(title, file).None? <==>
      !IsBlank(title) && file.Some? && IsImage(file.value) && file.value.size <= MaxFileSize
  {
  }
}
