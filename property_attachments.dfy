// The attachment picker of a property form
// (src/components/properties/PropertyAttachments.tsx): which dropped or
// selected files are accepted, which notices are raised for the others, and
// where an image coming back from the editor is sent.

module PropertyAttachments {
  import opened Seqs
  import opened Text
  import opened Records

  /** A browser File: its name, its MIME type and its size in bytes. */
  datatype File = File(name: string, kind: string, size: int)

  /** A file chosen in this session and not yet uploaded. */
  datatype PendingFile = PendingFile(file: File, preview: string, id: string)

  const ValidTypes: seq<string> := ["image/jpeg", "image/png", "image/webp", "application/pdf"]

  /** 10 MiB. */
  const MaxSize: int := 10 * 1024 * 1024

  /** The error notice raised for a file, None when it is accepted. The type
      is checked before the size. */
  function Rejection(f: File): Option<string>
  {
    if f.kind !in ValidTypes then Some("Arquivo " + f.name + " tem um tipo inválido.")
    else if f.size > MaxSize then Some("Arquivo " + f.name + " excede o limite de 10MB.")
    else None
  }

  predicate Acceptable(f: File)
  {
    Rejection(f).None?
  }

  /** The files handed to onAddFiles, in their original order. */
  function Accepted(files: seq<File>): seq<File>
  {
    Filter(files, Acceptable)
  }

  /** The notices raised while filtering, in file order. */
  function Notices(files: seq<File>): seq<string>
  {
    if files == [] then []
    else (if Rejection(files[0]).Some? then [Rejection(files[0]).value] else []) + Notices(files[1..])
  }

  /** The argument of the onAddFiles call, or None when it is not called. */
  function AddCall(files: seq<File>): Option<seq<File>>
  {
    var ok := Accepted(files);
    if |ok| > 0 then Some(ok) else None
  }

  /** A file is accepted exactly when its type is one of the four and it is
      at most 10 MiB. */
  lemma AcceptableSpec(f: File)
    ensures Acceptable(f) <==> (f.kind in ValidTypes && f.size <= MaxSize)
    ensures Acceptable(f) <==> f.kind in {"image/jpeg", "image/png", "image/webp", "application/pdf"} && f.size <= 10485760
  {
  }

  /** The limit is inclusive. */
  lemma SizeLimit(name: string)
    ensures Acceptable(File(name, "image/png", 10485760))
    ensures !Acceptable(File(name, "image/png", 10485761))
    ensures Rejection(File(name, "image/gif", 0)) == Some("Arquivo " + name + " tem um tipo inválido.")
  {
  }

  /** A file of a wrong type and too large gets only the type notice. */
  lemma TypeCheckedFirst(f: File)
    requires f.kind !in ValidTypes && f.size > MaxSize
    ensures Rejection(f) == Some("Arquivo " + f.name + " tem um tipo inválido.")
  {
  }

  /** The accepted files are exactly the acceptable ones, in their relative
      order. */
  lemma AcceptedSpec(files: seq<File>)
    ensures forall f :: f in Accepted(files) <==> f in files && Acceptable(f)
    ensures SubseqOf(Accepted(files), files)
  {
    FilterMembers(files, Acceptable);
    FilterIsSubseq(files, Acceptable);
  }

  /** Every file either goes through or raises exactly one notice. */
  lemma {:induction false} OneNoticePerRejected(files: seq<File>)
    ensures |Accepted(files)| + |Notices(files)| == |files|
  {
    if files != [] {
      OneNoticePerRejected(files[1..]);
    }
  }

  /** onAddFiles is called exactly when some file was accepted, and then with
      every accepted file. */
  lemma AddCallSpec(files: seq<File>)
    ensures AddCall(files).None? <==> forall i :: 0 <= i < |files| ==> !Acceptable(files[i])
    ensures AddCall(files).Some? ==> AddCall(files).value == Accepted(files) && |AddCall(files).value| > 0
  {
    FilterEmpty(files, Acceptable);
  }

  /** The number of files in the header: the saved ones plus the pending ones. */
  function ShownCount(existing: seq<PropertyAttachment>, pending: seq<PendingFile>): nat
  {
    |existing| + |pending|
  }

  // ------------------------------------------------------------ edited images

  /** Which callback receives an image saved in the editor. */
  datatype EditRoute =
    | UpdateExisting(id: string, file: File, preview: string)
    | UpdatePending(id: string, file: File, preview: string)

  predicate HasAttachment(existing: seq<PropertyAttachment>, id: string)
  {
    exists i :: 0 <= i < |existing| && existing[i].id == id
  }

  /** The file built from the editor's blob: "edited-<now>.jpg", a JPEG. */
  function EditedFile(now: int, size: int): File
  {
    File("edited-" + IntToString(now) + ".jpg", "image/jpeg", size)
  }

  function RouteEdit(existing: seq<PropertyAttachment>, id: string, now: int, size: int, preview: string): EditRoute
  {
    var file := EditedFile(now, size);
    if HasAttachment(existing, id) then UpdateExisting(id, file, preview) else UpdatePending(id, file, preview)
  }

  /** The edited image replaces a saved attachment exactly when its id is
      among them, and a pending file otherwise; it always keeps the id. */
  lemma RouteEditSpec(existing: seq<PropertyAttachment>, id: string, now: int, size: int, preview: string)
    ensures RouteEdit(existing, id, now, size, preview).UpdateExisting? <==>
      (exists a :: a in existing && a.id == id)
    ensures RouteEdit(existing, id, now, size, preview).id == id
    ensures RouteEdit(existing, id, now, size, preview).file.kind == "image/jpeg"
  {
    if exists a :: a in existing && a.id == id {
      var a :| a in existing && a.id == id;
      var i :| 0 <= i < |existing| && existing[i] == a;
    }
  }

  /** An edited image passes the type check of the picker. */
  lemma EditedFileHasValidType(now: int, size: int)
    ensures EditedFile(now, size).kind in ValidTypes
    ensures size <= MaxSize ==> Acceptable(EditedFile(now, size))
  {
  }

  // ---------------------------------------------------------------- component

  class AttachmentsView {
    var isDragging: bool
    /** The id and url of the image open in the editor. */
    var editingImage: Option<(string, string)>

    constructor ()
      ensures !isDragging && editingImage.None?
    {
      isDragging, editingImage := false, None;
    }

    method DragOver()
      modifies this
      ensures isDragging && editingImage == old(editingImage)
    {
      isDragging := true;
    }

    method DragLeave()
      modifies this
      ensures !isDragging && editingImage == old(editingImage)
    {
      isDragging := false;
    }

    /** A drop ends the drag and validates the files: the notices raised and
        the onAddFiles call made. */
    method Drop(files: seq<File>) returns (notices: seq<string>, added: Option<seq<File>>)
      modifies this
      ensures !isDragging && editingImage == old(editingImage)
      ensures notices == Notices(files) && added == AddCall(files)
    {
      isDragging := false;
      notices, added := Notices(files), AddCall(files);
    }

    method StartEditing(id: string, url: string)
      modifies this
      ensures editingImage == Some((id, url)) && isDragging == old(isDragging)
    {
      editingImage := Some((id, url));
    }

    method CancelEditing()
      modifies this
      ensures editingImage.None? && isDragging == old(isDragging)
    {
      editingImage := None;
    }

    /** The editor's onSave: the image goes to one of the two callbacks and
        the editor closes. */
    method SaveEdited(existing: seq<PropertyAttachment>, now: int, size: int, preview: string) returns (route: EditRoute)
      requires editingImage.Some?
      modifies this
      ensures route == RouteEdit(existing, old(editingImage).value.0, now, size, preview)
      ensures editingImage.None? && isDragging == old(isDragging)
    {
      route := RouteEdit(existing, editingImage.value.0, now, size, preview);
      editingImage := None;
    }
  }
}
