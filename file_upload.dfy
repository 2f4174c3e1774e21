/**
 * The upload checks of emvr/ui/components/file_upload.py, `process_file_upload`: the
 * MIME-type and extension test, the 20 MiB size limit, and how the ingestion result is
 * read as success or failure.
 *
 * The file's size (or the error reading it) is part of the upload; the ingestion pipeline
 * is a parameter that returns the result dictionary, its values as text, or the text of
 * the exception it raised.
 */
module FileUpload {
  import opened Outcomes
  import opened Text

  const SupportedTextTypes: set<string> := {
    "text/plain", "text/markdown", "text/csv", "text/html", "application/json", "application/pdf",
    "application/vnd.openxmlformats-officedocument.wordprocessingml.document",
    "application/vnd.openxmlformats-officedocument.spreadsheetml.sheet",
    "application/vnd.openxmlformats-officedocument.presentationml.presentation"
  }

  const SupportedImageTypes: set<string> := {"image/jpeg", "image/png", "image/gif", "image/webp"}

  const SupportedFileExtensions: set<string> := {
    ".txt", ".md", ".csv", ".json", ".html", ".pdf", ".docx", ".xlsx", ".pptx",
    ".jpg", ".jpeg", ".png", ".gif", ".webp"
  }

  /** 20 MiB. */
  const MaxFileSize: nat := 20 * 1024 * 1024

  /** The position of the last `c` in `s`. */
  function LastIndexOf(s: string, c: char): (r: Option<nat>)
    ensures r.None? <==> c !in s
    ensures r.Some? ==> r.value < |s| && s[r.value] == c && c !in s[r.value + 1..]
  {
    if s == [] then None
    else if s[|s| - 1] == c then Some(|s| - 1)
    else
      var r := LastIndexOf(s[..|s| - 1], c);
      assert r.Some? ==> s[r.value + 1..] == s[..|s| - 1][r.value + 1..] + [s[|s| - 1]];
      r
  }

  /** `Path(name).name`: the text after the last "/". */
  function BaseName(name: string): (b: string)
    ensures '/' !in b
  {
    match LastIndexOf(name, '/')
    case None => name
    case Some(i) => name[i + 1..]
  }

  /**
   * `Path(name).suffix`: from the last "." of the base name, unless that dot opens the
   * name or ends it.
   */
  function Suffix(name: string): (r: string)
    ensures r == [] || (|r| >= 2 && r[0] == '.' && '.' !in r[1..] && '/' !in r
                        && |r| < |BaseName(name)| && BaseName(name)[|BaseName(name)| - |r|..] == r)
  {
    var base := BaseName(name);
    match LastIndexOf(base, '.')
    case None => ""
    case Some(i) => if 0 < i < |base| - 1 then base[i..] else ""
  }

  /** What `process_file_upload` receives: `path`, `name`, `type` and the size of the file on disk. */
  datatype Upload = Upload(path: string, name: string, mimeType: Option<string>, size: Result<nat>)

  /** The returned triple. */
  datatype Outcome = Outcome(success: bool, message: string, result: map<string, string>)

  /** The metadata passed to `ingest_file`. */
  datatype Metadata = Metadata(source: string, fileType: string, fileSize: nat)

  /** The type test: a non-empty MIME type outside both sets, with an unsupported extension. */
  predicate TypeRejected(mimeType: string, ext: string)
  {
    mimeType != "" && mimeType !in SupportedTextTypes && mimeType !in SupportedImageTypes
    && ext !in SupportedFileExtensions
  }

  /** `size / (1024 * 1024)` in hundredths, rounded to nearest with ties to even, as `:.2f` does. */
  function Hundredths(size: nat): (q: nat)
    ensures -524288 <= q * 1048576 - size * 100 <= 524288
  {
    var q := size * 100 / 1048576;
    var r := size * 100 % 1048576;
    if 2 * r > 1048576 || (2 * r == 1048576 && q % 2 == 1) then q + 1 else q
  }

  /** Two decimals of a count of hundredths. */
  function TwoDecimals(h: nat): string
  {
    NatToString(h / 100) + "." + [DigitChar(h % 100 / 10), DigitChar(h % 10)]
  }

  function TooLargeMessage(size: nat): string
  {
    "File too large: " + TwoDecimals(Hundredths(size)) + " MB (max 20MB)"
  }

  /** The message and result of an exception. */
  function Failure(e: string): Outcome
  {
    Outcome(false, "Error processing file: " + e, map["status" := "error", "error" := e])
  }

  /**
   * `process_file_upload`, in the order of its checks: an empty or missing MIME type
   * never fails the type test; a type outside both sets fails only with an unsupported
   * extension, and then whatever the size; a readable file that passes the type test is
   * refused above 20 MiB, and otherwise reaches ingestion, whose result counts as a
   * success exactly when its status is "success" or it has an "id"; every exception gives
   * a failure with status "error" and the exception's text.
   */
  function ProcessFileUpload(upload: Upload, ingest: (string, Metadata) -> Result<map<string, string>>): (out: Outcome)
    ensures upload.size.Err? ==> out == Outcome(false, "Error processing file: " + upload.size.error,
                                                map["status" := "error", "error" := upload.size.error])
    ensures upload.mimeType.GetOr("") == "" ==> !TypeRejected(upload.mimeType.GetOr(""), Lower(Suffix(upload.name)))
    ensures upload.size.Ok? && TypeRejected(upload.mimeType.GetOr(""), Lower(Suffix(upload.name))) ==>
              !out.success && out.result == map["status" := "error", "error" := "Unsupported file type"]
              && out.message == "Unsupported file type: " + upload.mimeType.GetOr("")
    ensures upload.size.Ok? && !TypeRejected(upload.mimeType.GetOr(""), Lower(Suffix(upload.name)))
            && upload.size.value > 20 * 1024 * 1024 ==>
              !out.success && out.result == map["status" := "error", "error" := "File too large"]
    ensures upload.size.Ok? && !TypeRejected(upload.mimeType.GetOr(""), Lower(Suffix(upload.name)))
            && upload.size.value <= 20 * 1024 * 1024 ==>
              var reply := ingest(upload.path, Metadata(upload.name, upload.mimeType.GetOr(""), upload.size.value));
              && (reply.Err? ==> out == Outcome(false, "Error processing file: " + reply.error,
                                                map["status" := "error", "error" := reply.error]))
              && (reply.Ok? ==> out.result == reply.value
                                && (out.success <==> ("status" in reply.value && reply.value["status"] == "success")
                                                     || "id" in reply.value))
  {
    match upload.size
    case Err(e) => Failure(e)
    case Ok(size) =>
      var fileType := upload.mimeType.GetOr("");
      var ext := Lower(Suffix(upload.name));
      if TypeRejected(fileType, ext) then
        Outcome(false, "Unsupported file type: " + (if fileType != "" then fileType else ext),
                map["status" := "error", "error" := "Unsupported file type"])
      else if size > MaxFileSize then
        Outcome(false, TooLargeMessage(size), map["status" := "error", "error" := "File too large"])
      else match ingest(upload.path, Metadata(upload.name, fileType, size))
        case Err(e) => Failure(e)
        case Ok(result) =>
          if ("status" in result && result["status"] == "success") || "id" in result then
            Outcome(true, "Successfully processed file: " + upload.name + " ("
                          + (if "chunks" in result then result["chunks"] else "0") + " chunks created)", result)
          else
            Outcome(false, "Failed to process file: " + (if "error" in result then result["error"] else "Unknown error"),
                    result)
  }
}
