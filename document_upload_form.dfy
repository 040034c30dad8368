/**
 * The compliance document upload form: its record of form fields, the
 * field-by-field updater, the tag editor on the record's tags, and the
 * list of uploaded files (one entry per chosen file, removed by file).
 */
module DocumentUploadForm {
  import opened Common
  import TagList

  datatype Priority = Low | Medium | High

  datatype DocumentUploadData = DocumentUploadData(
    documentType: string,
    category: string,
    title: string,
    description: string,
    tags: seq<string>,
    priority: Priority,
    approvalRequired: bool,
    files: seq<File>,
    expiryDate: string,
    relatedFiling: string)

  function InitialData(): DocumentUploadData {
    DocumentUploadData("", "", "", "", [], Medium, false, [], "", "")
  }

  // ---------------------------------------------------------------------
  // handleInputChange
  // ---------------------------------------------------------------------

  /** The field handleInputChange writes, with its new value. */
  datatype DataUpdate =
    | SetDocumentType(documentType: string)
    | SetCategory(category: string)
    | SetTitle(title: string)
    | SetDescription(description: string)
    | SetTags(tags: seq<string>)
    | SetPriority(priority: Priority)
    | SetApprovalRequired(approvalRequired: bool)
    | SetFiles(files: seq<File>)
    | SetExpiryDate(expiryDate: string)
    | SetRelatedFiling(relatedFiling: string)

  /** handleInputChange: the named field takes the value and every other field keeps its old one. */
  function HandleInputChange(d: DocumentUploadData, u: DataUpdate): (r: DocumentUploadData)
    ensures if u.SetDocumentType? then r.documentType == u.documentType else r.documentType == d.documentType
    ensures if u.SetCategory? then r.category == u.category else r.category == d.category
    ensures if u.SetTitle? then r.title == u.title else r.title == d.title
    ensures if u.SetDescription? then r.description == u.description else r.description == d.description
    ensures if u.SetTags? then r.tags == u.tags else r.tags == d.tags
    ensures if u.SetPriority? then r.priority == u.priority else r.priority == d.priority
    ensures if u.SetApprovalRequired? then r.approvalRequired == u.approvalRequired
      else r.approvalRequired == d.approvalRequired
    ensures if u.SetFiles? then r.files == u.files else r.files == d.files
    ensures if u.SetExpiryDate? then r.expiryDate == u.expiryDate else r.expiryDate == d.expiryDate
    ensures if u.SetRelatedFiling? then r.relatedFiling == u.relatedFiling else r.relatedFiling == d.relatedFiling
  {
    match u
    case SetDocumentType(v) => d.(documentType := v)
    case SetCategory(v) => d.(category := v)
    case SetTitle(v) => d.(title := v)
    case SetDescription(v) => d.(description := v)
    case SetTags(v) => d.(tags := v)
    case SetPriority(v) => d.(priority := v)
    case SetApprovalRequired(v) => d.(approvalRequired := v)
    case SetFiles(v) => d.(files := v)
    case SetExpiryDate(v) => d.(expiryDate := v)
    case SetRelatedFiling(v) => d.(relatedFiling := v)
  }

  /** Writing a field twice keeps only the second value. */
  lemma LastWriteWins(d: DocumentUploadData, u: DataUpdate, v: DataUpdate)
    requires u.SetDocumentType? == v.SetDocumentType? && u.SetCategory? == v.SetCategory?
    requires u.SetTitle? == v.SetTitle? && u.SetDescription? == v.SetDescription?
    requires u.SetTags? == v.SetTags? && u.SetPriority? == v.SetPriority?
    requires u.SetApprovalRequired? == v.SetApprovalRequired? && u.SetFiles? == v.SetFiles?
    requires u.SetExpiryDate? == v.SetExpiryDate? && u.SetRelatedFiling? == v.SetRelatedFiling?
    ensures HandleInputChange(HandleInputChange(d, u), v) == HandleInputChange(d, v)
  {
  }

  // ---------------------------------------------------------------------
  // Tags (addTag / removeTag go through handleInputChange("tags", …))
  // ---------------------------------------------------------------------

  /** addTag on the form: the record's tags and the tag box, as the shared tag editor updates them. */
  function AddTag(d: DocumentUploadData, currentTag: string): (r: (DocumentUploadData, string))
    ensures r.0 == d.(tags := TagList.AddTag(TagList.TagInput(d.tags, currentTag)).tags)
    ensures r.1 == TagList.AddTag(TagList.TagInput(d.tags, currentTag)).current
  {
    var st := TagList.AddTag(TagList.TagInput(d.tags, currentTag));
    if st.tags != d.tags then (HandleInputChange(d, SetTags(st.tags)), st.current) else (d, currentTag)
  }

  function RemoveTag(d: DocumentUploadData, tag: string): (r: DocumentUploadData)
    ensures r == d.(tags := TagList.RemoveTag(d.tags, tag))
  {
    HandleInputChange(d, SetTags(TagList.RemoveTag(d.tags, tag)))
  }

  /** Adding a tag leaves every other field of the form alone and never creates a duplicate. */
  lemma AddTagOnlyTouchesTags(d: DocumentUploadData, currentTag: string)
    requires Distinct(d.tags)
    ensures AddTag(d, currentTag).0.(tags := d.tags) == d
    ensures Distinct(AddTag(d, currentTag).0.tags)
  {
    TagList.AddTagKeepsDistinct(TagList.TagInput(d.tags, currentTag));
  }

  // ---------------------------------------------------------------------
  // Uploaded files
  // ---------------------------------------------------------------------

  datatype UploadStatus = Uploading | Completed | Failed

  /** An entry of the upload list; `hasPreview` says an object URL was made for it (images only). */
  datatype UploadedFile = UploadedFile(file: File, progress: int, status: UploadStatus, hasPreview: bool)

  function NewUpload(f: File): UploadedFile {
    UploadedFile(f, 0, Uploading, IsPrefix("image/", f.mimeType))
  }

  /** handleFileUpload: nothing for no file list, otherwise one new entry per file, in order, after the old ones. */
  function HandleFileUpload(us: seq<UploadedFile>, files: Option<seq<File>>): (r: seq<UploadedFile>)
    ensures files.None? ==> r == us
    ensures files.Some? ==> |r| == |us| + |files.value| && r[..|us|] == us
    ensures files.Some? ==> forall i :: 0 <= i < |files.value| ==>
      r[|us| + i] == UploadedFile(files.value[i], 0, Uploading, IsPrefix("image/", files.value[i].mimeType))
  {
    match files
    case None => us
    case Some(fs) => us + Map(fs, NewUpload)
  }

  function IsNotFile(f: File): UploadedFile -> bool {
    (u: UploadedFile) => u.file != f
  }

  /** removeFile: the entries for this file go, the rest stay in order. */
  function RemoveFile(us: seq<UploadedFile>, f: File): (r: seq<UploadedFile>)
    ensures forall u :: u in r <==> u in us && u.file != f
    ensures IsSubsequence(r, us)
  {
    FilterIsSubsequence(us, IsNotFile(f));
    Filter(us, IsNotFile(f))
  }

  /** Uploading files and then removing one of them leaves the other uploads, old and new, in order. */
  lemma RemoveAfterUpload(us: seq<UploadedFile>, fs: seq<File>, f: File)
    ensures RemoveFile(HandleFileUpload(us, Some(fs)), f)
      == RemoveFile(us, f) + RemoveFile(Map(fs, NewUpload), f)
  {
    FilterAppend(us, Map(fs, NewUpload), IsNotFile(f));
  }

  /** Removing a file that was never uploaded changes nothing. */
  lemma RemoveAbsent(us: seq<UploadedFile>, f: File)
    requires forall i :: 0 <= i < |us| ==> us[i].file != f
    ensures RemoveFile(us, f) == us
  {
    FilterAll(us, IsNotFile(f));
  }
}
