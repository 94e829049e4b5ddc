/**
 * The resume page: which uploads it accepts, when it asks the server for an
 * analysis, and what it makes of the server's reply.
 */
module ResumeAnalyzer {
  import opened Wrappers
  import opened Text
  import opened Decimal
  import opened Json
  import opened ResumeAnalysis
  import Server

  /** The accepted MIME types: PDF, DOC, DOCX and plain text. */
  const ALLOWED_TYPES: seq<string> := [
    "application/pdf",
    "application/msword",
    "application/vnd.openxmlformats-officedocument.wordprocessingml.document",
    "text/plain"]

  /** The largest accepted upload, in bytes: 5 MiB. */
  const MAX_FILE_SIZE: nat := 5 * 1024 * 1024

  /** What the page reads of a chosen file. */
  datatype FileInfo = FileInfo(name: string, mimeType: string, size: nat)

  datatype UploadError = InvalidType | TooLarge

  /** The message shown for a refused upload. */
  function UploadErrorText(e: UploadError): string {
    match e
    case InvalidType => "Please upload a PDF, DOC, DOCX, or TXT file."
    case TooLarge => "Please upload a file smaller than 5MB."
  }

  /** The upload checks, type first: a file of another type is refused as
      such whatever its size; an accepted type is refused only above 5 MiB. */
  function CheckFile(file: FileInfo): (r: Option<UploadError>)
    ensures r == Some(InvalidType) <==> file.mimeType !in ALLOWED_TYPES
    ensures r == Some(TooLarge) <==> file.mimeType in ALLOWED_TYPES && file.size > MAX_FILE_SIZE
    ensures r.None? <==> file.mimeType in ALLOWED_TYPES && file.size <= MAX_FILE_SIZE
  {
    if file.mimeType !in ALLOWED_TYPES then Some(InvalidType)
    else if file.size > MAX_FILE_SIZE then Some(TooLarge)
    else None
  }

  /** The request body: the resume text and an empty job description. */
  function RequestBody(resumeText: string): Json {
    JObject([("resumeText", JString(resumeText)), ("jobDescription", JString(""))])
  }

  /** The server's reply: its status, and its body read as JSON (or the
      error reading it raised). */
  datatype HttpReply = HttpReply(status: nat, body: Result<Json, string>)

  /** `resp.ok`. */
  predicate Ok(reply: HttpReply) {
    200 <= reply.status <= 299
  }

  /** The body of a reply read as JSON carries a non-empty `error` string. */
  predicate HasErrorText(reply: HttpReply) {
    && reply.body.Success?
    && Field(reply.body.value, "error").Some?
    && Field(reply.body.value, "error").value.JString?
    && Field(reply.body.value, "error").value.s != ""
  }

  /** The message for a failed reply: the body's `error` text when it has
      one, otherwise `Server error: <status>` (an unreadable body, no
      `error` field, or a falsy one: `null`, `""`, `false`, `0`). */
  function ServerErrorMessage(reply: HttpReply): (r: string)
    ensures HasErrorText(reply) ==> r == Field(reply.body.value, "error").value.s
    ensures !HasErrorText(reply) ==> r == "Server error: " + NatToString(reply.status)
  {
    var fallback := "Server error: " + NatToString(reply.status);
    if reply.body.Failure? then fallback
    else
      var e := Field(reply.body.value, "error");
      if e.Some? && e.value.JString? && e.value.s != "" then e.value.s else fallback
  }

  /** How an analysis request ends. */
  datatype Outcome = NotSent | Failed(message: string) | Analysed(analysis: Analysis)

  /** What the page makes of a reply: a failed status reports the server's
      message; an OK reply is coerced like the server coerces it. */
  function ReplyOutcome(reply: HttpReply): (r: Outcome)
    ensures r != NotSent
    ensures !Ok(reply) ==> r == Failed(ServerErrorMessage(reply))
    ensures Ok(reply) && reply.body.Failure? ==> r == Failed(reply.body.error)
    ensures Ok(reply) && reply.body.Success? && !reply.body.value.JNull? ==>
            r == Analysed(Coerce(reply.body.value).value)
    ensures Ok(reply) && reply.body == Success(JNull) ==> r == Failed(NULL_READ_ERROR)
  {
    if !Ok(reply) then Failed(ServerErrorMessage(reply))
    else if reply.body.Failure? then Failed(reply.body.error)
    else
      match Coerce(reply.body.value)
      case Success(a) => Analysed(a)
      case Failure(m) => Failed(m)
  }

  /** An analysis the server sends arrives unchanged. */
  lemma AnalysisArrives(a: Analysis, status: nat)
    requires 200 <= status <= 299
    ensures ReplyOutcome(HttpReply(status, Success(ToJson(a)))) == Analysed(a)
  {
    CoerceToJson(a);
  }

  /** An error the server reports is the message the page shows. */
  lemma ServerErrorShown(message: string, status: nat)
    requires !(200 <= status <= 299) && message != ""
    ensures ReplyOutcome(HttpReply(status, Success(Server.ErrorBody(message)))) == Failed(message)
  {
  }

  /** The page's state. */
  class Analyzer {
    var resumeText: string
    var isAnalyzing: bool
    var analysis: Option<Analysis>
    var uploadedFile: Option<FileInfo>
    var isDragging: bool

    constructor()
      ensures resumeText == "" && !isAnalyzing && analysis.None? && uploadedFile.None? && !isDragging
    {
      resumeText := "";
      isAnalyzing := false;
      analysis := None;
      uploadedFile := None;
      isDragging := false;
    }

    /** `handleFileUpload`: a file passing both checks becomes the uploaded
        file; a refused one changes nothing. */
    method HandleFileUpload(file: FileInfo) returns (error: Option<UploadError>)
      modifies this
      ensures error == CheckFile(file)
      ensures uploadedFile == if error.None? then Some(file) else old(uploadedFile)
      ensures resumeText == old(resumeText) && isAnalyzing == old(isAnalyzing)
      ensures analysis == old(analysis) && isDragging == old(isDragging)
    {
      error := CheckFile(file);
      if error.None? {
        uploadedFile := Some(file);
      }
    }

    /** The text the deferred file reading produces. */
    method SetResumeText(text: string)
      modifies this
      ensures resumeText == text
      ensures isAnalyzing == old(isAnalyzing) && analysis == old(analysis)
      ensures uploadedFile == old(uploadedFile) && isDragging == old(isDragging)
    {
      resumeText := text;
    }

    method HandleDragOver()
      modifies this
      ensures isDragging
      ensures resumeText == old(resumeText) && isAnalyzing == old(isAnalyzing)
      ensures analysis == old(analysis) && uploadedFile == old(uploadedFile)
    {
      isDragging := true;
    }

    method HandleDragLeave()
      modifies this
      ensures !isDragging
      ensures resumeText == old(resumeText) && isAnalyzing == old(isAnalyzing)
      ensures analysis == old(analysis) && uploadedFile == old(uploadedFile)
    {
      isDragging := false;
    }

    /** `handleDrop`: dragging stops, and the first of the dropped files, if
        any, goes through the upload checks. */
    method HandleDrop(files: seq<FileInfo>) returns (error: Option<UploadError>)
      modifies this
      ensures !isDragging
      ensures files == [] ==> error.None? && uploadedFile == old(uploadedFile)
      ensures files != [] ==> error == CheckFile(files[0])
      ensures files != [] ==> uploadedFile == if error.None? then Some(files[0]) else old(uploadedFile)
      ensures resumeText == old(resumeText) && isAnalyzing == old(isAnalyzing) && analysis == old(analysis)
    {
      isDragging := false;
      error := None;
      if |files| > 0 {
        error := HandleFileUpload(files[0]);
      }
    }

    /** `handleFileInputChange`: the first of the chosen files, if any, goes
        through the upload checks; the drag state is left as it was. */
    method HandleFileInputChange(files: seq<FileInfo>) returns (error: Option<UploadError>)
      modifies this
      ensures files == [] ==> error.None? && uploadedFile == old(uploadedFile)
      ensures files != [] ==> error == CheckFile(files[0])
      ensures files != [] ==> uploadedFile == if error.None? then Some(files[0]) else old(uploadedFile)
      ensures resumeText == old(resumeText) && isAnalyzing == old(isAnalyzing) && analysis == old(analysis)
      ensures isDragging == old(isDragging)
    {
      error := None;
      if |files| > 0 {
        error := HandleFileUpload(files[0]);
      }
    }

    /** The analyze button is disabled while analysing or with no text. */
    predicate AnalyzeDisabled()
      reads this
    {
      isAnalyzing || resumeText == ""
    }

    /** `handleAnalyze`. A resume of nothing but white space is refused
        before any request; otherwise `server` answers the request body
        with a reply, or with the message of the error that rejected the
        request; that decides the outcome, and analysing is over either way. */
    method HandleAnalyze(server: Json -> Result<HttpReply, string>) returns (outcome: Outcome)
      modifies this
      ensures AllWhitespace(resumeText) ==> outcome == NotSent && isAnalyzing == old(isAnalyzing)
      ensures !AllWhitespace(resumeText) && server(RequestBody(resumeText)).Failure? ==>
        outcome == Failed(server(RequestBody(resumeText)).error)
      ensures !AllWhitespace(resumeText) && server(RequestBody(resumeText)).Success? ==>
        outcome == ReplyOutcome(server(RequestBody(resumeText)).value)
      ensures !AllWhitespace(resumeText) ==> !isAnalyzing
      ensures analysis == if outcome.Analysed? then Some(outcome.analysis) else old(analysis)
      ensures resumeText == old(resumeText) && uploadedFile == old(uploadedFile) && isDragging == old(isDragging)
    {
      if Trim(resumeText) == "" {
        return NotSent;
      }
      isAnalyzing := true;
      var reply := server(RequestBody(resumeText));
      if reply.Failure? {
        outcome := Failed(reply.error);
      } else {
        outcome := ReplyOutcome(reply.value);
      }
      if outcome.Analysed? {
        analysis := Some(outcome.analysis);
      }
      isAnalyzing := false;
    }
  }

  /** A resume of spaces enables the button, but the analysis it starts is
      refused without a request. */
  lemma BlankResumeEnabledButRefused(a: Analyzer)
    requires a.resumeText == " " && !a.isAnalyzing
    ensures !a.AnalyzeDisabled() && AllWhitespace(a.resumeText)
  {
    assert IsWhitespace(a.resumeText[0]);
  }
}
