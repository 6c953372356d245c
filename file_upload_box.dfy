/** The forecast upload box: the decision taken when the file input changes
    (nothing chosen, wrong type, accepted), and the template button. The
    toasts and the processing log become returned outcomes. */
module FileUploadBox {
  import opened Collections

  /** What the browser reports about the chosen file. */
  datatype UploadedFile = UploadedFile(name: string, mimeType: string, sizeBytes: nat)

  /** A toast message; `destructive` is the error styling. */
  datatype Toast = Toast(title: string, description: string, destructive: bool)

  /** What handling the input's change event does: nothing, an error toast,
      or a success toast followed by processing the named file. */
  datatype UploadOutcome =
    | NoFile
    | Rejected(toast: Toast)
    | Accepted(toast: Toast, processing: string)

  const XlsxMimeType: string := "application/vnd.openxmlformats-officedocument.spreadsheetml.sheet"
  const XlsMimeType: string := "application/vnd.ms-excel"

  /** The MIME types the upload accepts. */
  function AllowedTypes(): seq<string>
  {
    [XlsxMimeType, XlsMimeType]
  }

  const InvalidTypeToast: Toast :=
    Toast("Invalid File Type", "Please upload only Excel files (.xlsx, .xls)", true)

  /** `s` begins with `prefix`. */
  predicate StartsWith(s: string, prefix: string)
  {
    |prefix| <= |s| && s[..|prefix|] == prefix
  }

  /** The success message names the file. */
  function UploadedToast(name: string): (t: Toast)
    ensures !t.destructive
    ensures StartsWith(t.description, name)
  {
    Toast("File Uploaded Successfully", name + " has been processed. Data will appear in the table below.", false)
  }

  /** `handleFileUpload`, given the first selected file if any. */
  function HandleFileUpload(file: Option<UploadedFile>): (o: UploadOutcome)
    ensures o.NoFile? <==> file.None?
    ensures o.Rejected? <==> file.Some? && file.value.mimeType !in AllowedTypes()
    ensures o.Rejected? ==> o.toast.destructive
    ensures o.Accepted? ==>
              && file.Some? && file.value.mimeType in AllowedTypes()
              && !o.toast.destructive
              && StartsWith(o.toast.description, file.value.name)
              && o.processing == file.value.name
  {
    match file
    case None => NoFile
    case Some(f) =>
      if f.mimeType !in AllowedTypes() then Rejected(InvalidTypeToast)
      else Accepted(UploadedToast(f.name), f.name)
  }

  /** Acceptance is an exact match against one of the two Excel types. */
  lemma AcceptedExactlyForExcelTypes(f: UploadedFile)
    ensures HandleFileUpload(Some(f)).Accepted? <==> f.mimeType == XlsxMimeType || f.mimeType == XlsMimeType
  {
  }

  /** The decision depends on the type alone: neither the file's name (its
      extension) nor its size changes whether it is accepted, whatever the
      input's `.xlsx,.xls` hint and the stated 10 MB limit suggest. */
  lemma DecisionIgnoresNameAndSize(f: UploadedFile, g: UploadedFile)
    requires f.mimeType == g.mimeType
    ensures HandleFileUpload(Some(f)).Accepted? == HandleFileUpload(Some(g)).Accepted?
    ensures HandleFileUpload(Some(f)).Rejected? == HandleFileUpload(Some(g)).Rejected?
  {
  }

  /** A spreadsheet-named file the browser reports with no type is rejected,
      and an oversized file of an Excel type is accepted. */
  lemma TypeNotExtension()
    ensures HandleFileUpload(Some(UploadedFile("forecast.xlsx", "", 1024))) == Rejected(InvalidTypeToast)
    ensures HandleFileUpload(Some(UploadedFile("big.csv", XlsMimeType, 50000000))).Accepted?
  {
  }

  /** The template button always reports a download, never an error. */
  function DownloadTemplate(): (t: Toast)
    ensures !t.destructive && t.title == "Template Downloaded"
  {
    Toast("Template Downloaded", "Excel template has been downloaded to your device.", false)
  }
}
