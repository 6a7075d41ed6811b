/** The property-document view of the `gt_frontend` app
    (`PropertyVerification`): the submission list, the submit form with its
    file, the document call, and the status and verdict badges. */
module Verification {
  import opened Base
  import opened JsString
  import opened JsValue
  import opened Wire
  import Auth

  /** The selected file as the view reads it: `file.size` and `file.type`. */
  datatype File = File(name: string, size: nat, mime: string)

  /** The submit form. */
  datatype SubmissionForm = SubmissionForm(
    title: string, documentText: string, ipfsHash: string,
    documentType: string, fileSize: int, notes: string)

  const EmptyForm: SubmissionForm := SubmissionForm("", "", "", "", 0, "")

  /** The two inputs wired to `handleInputChange`, by their `name`. */
  datatype TextInput = TitleInput | NotesInput

  /** Placeholder content address sent instead of an upload. */
  const MockIpfsHash: string := "QmXXXXXXXXXXXXXXXXXXXXXXXXXXXXXXXXXXXXXXXXXXXX"

  /** How much of the file's text is kept. */
  const TextLimit: nat := 1000

  /** The filter record `getSubmissionsWithFilters` is sent: only the
      submitter is set. */
  datatype SubmissionQuery = SubmissionQuery(
    status: Option<Value>, submitter: seq<string>, startDate: Option<int>,
    endDate: Option<int>, limit: Option<int>, offset: Option<int>)

  function OwnSubmissions(principal: string): SubmissionQuery
  {
    SubmissionQuery(None, [principal], None, None, None, None)
  }

  /** The arguments of `submitPropertyDocument`. */
  datatype SubmitCall = SubmitCall(
    title: string, documentText: string, ipfsHash: seq<string>,
    documentType: seq<string>, fileSize: seq<int>, notes: seq<string>)

  /** The call built from the form: the placeholder hash, the file's type and
      size each as a present optional, and the notes present exactly when
      non-empty. */
  function SubmitArgs(form: SubmissionForm): (c: SubmitCall)
    ensures c.title == form.title && c.documentText == form.documentText
    ensures c.ipfsHash == [MockIpfsHash] && c.documentType == [form.documentType]
    ensures c.fileSize == [form.fileSize]
    ensures OptionalFirst(c.notes) == if form.notes == "" then None else Some(form.notes)
  {
    SubmitCall(form.title, form.documentText, [MockIpfsHash], [form.documentType], [form.fileSize],
               if form.notes != "" then [form.notes] else [])
  }

  /** `getStatusColor`, keyed by the status tag. */
  function StatusTone(status: Value): Tone
  {
    match KeyText(status)
    case "pending" => Yellow
    case "processing" => Blue
    case "verified" => Green
    case "rejected" => Red
    case "requires_review" => Orange
    case _ => Gray
  }

  /** Each of the five tags has its own colour; every other tag is grey. */
  lemma StatusTones(tag: string)
    ensures StatusTone(Variant(tag)) == Yellow <==> tag == "pending"
    ensures StatusTone(Variant(tag)) == Blue <==> tag == "processing"
    ensures StatusTone(Variant(tag)) == Green <==> tag == "verified"
    ensures StatusTone(Variant(tag)) == Red <==> tag == "rejected"
    ensures StatusTone(Variant(tag)) == Orange <==> tag == "requires_review"
    ensures StatusTone(Variant(tag)) == Gray <==>
      tag !in {"pending", "processing", "verified", "rejected", "requires_review"}
  {
    VariantTag(tag, tag);
  }

  /** The "Use for Tokenization" action: offered for a verified submission. */
  predicate CanTokenize(status: Value)
  {
    HasTag(status, "verified")
  }

  /** The action is offered exactly for the submissions shown in green. */
  lemma TokenizeIffGreen(status: Value)
    ensures CanTokenize(status) <==> StatusTone(status) == Green
  {
  }

  /** `getVerdictColor` on the optional verdict of the first AI check. */
  function VerdictTone(verdict: seq<Value>): Tone
  {
    if |verdict| == 0 then Gray
    else match KeyText(verdict[0])
      case "valid" => Green
      case "invalid" => Red
      case "requires_review" => Orange
      case _ => Gray
  }

  /** The verdict text: its tag, or "Pending" when there is none. */
  function VerdictLabel(verdict: seq<Value>): string
  {
    if |verdict| > 0 then KeyText(verdict[0]) else "Pending"
  }

  /** The colour agrees with the text: a missing verdict is a grey "Pending",
      and a present one is coloured exactly when its tag is one of the three
      known verdicts. */
  lemma VerdictAgrees(verdict: seq<Value>)
    ensures |verdict| == 0 ==> VerdictLabel(verdict) == "Pending" && VerdictTone(verdict) == Gray
    ensures VerdictTone(verdict) == Green <==> VerdictLabel(verdict) == "valid"
    ensures VerdictTone(verdict) == Red <==> VerdictLabel(verdict) == "invalid"
    ensures VerdictTone(verdict) == Orange <==> VerdictLabel(verdict) == "requires_review"
  {
  }

  class VerificationPanel {
    const principal: string
    /** The handle the view calls through, `actors.propertyVerifier`. */
    const service: Option<Auth.Handle>
    var submissions: seq<Value>
    var loading: bool
    var error: Option<string>
    var showSubmitModal: bool
    var selectedFile: Option<File>
    var form: SubmissionForm

    /** The view as first rendered, before its load effect runs. */
    constructor(principal: string, service: Option<Auth.Handle>)
      ensures this.principal == principal && this.service == service
      ensures submissions == [] && loading && error.None? && !showSubmitModal
      ensures selectedFile.None? && form == EmptyForm
    {
      this.principal := principal;
      this.service := service;
      submissions := [];
      loading := true;
      error := None;
      showSubmitModal := false;
      selectedFile := None;
      form := EmptyForm;
    }

    /** `loadSubmissions`: the caller's own submissions.  `asked` is the query
        when the optional chain reached the method.  A rejected call keeps
        the old list and reports the failure; loading ends either way. */
    method LoadSubmissions(call: ListCall<Value>) returns (asked: Option<SubmissionQuery>)
      modifies this`submissions, this`loading, this`error
      ensures !loading
      ensures var c := if service.None? then MethodMissing else call;
        && (asked.Some? <==> !c.MethodMissing?)
        && (asked.Some? ==> asked.value == OwnSubmissions(principal))
        && (if c.CallThrew? then submissions == old(submissions) && error == Some("Failed to load submissions")
            else submissions == ListOrEmpty(c) && error.None?)
    {
      loading := true;
      error := None;
      var c := if service.None? then MethodMissing else call;
      asked := if c.MethodMissing? then None else Some(OwnSubmissions(principal));
      if c.CallThrew? {
        error := Some("Failed to load submissions");
      } else {
        submissions := ListOrEmpty(c);
      }
      loading := false;
    }

    /** `handleFileSelect`: with a file, it becomes the selection and its size
        and type enter the form, and reading its text starts (`reading`);
        without one nothing changes. */
    method HandleFileSelect(file: Option<File>) returns (reading: bool)
      modifies this`selectedFile, this`form
      ensures reading <==> file.Some?
      ensures file.None? ==> selectedFile == old(selectedFile) && form == old(form)
      ensures file.Some? ==>
        selectedFile == file && form == old(form).(fileSize := file.value.size, documentType := file.value.mime)
    {
      reading := file.Some?;
      if file.Some? {
        selectedFile := file;
        form := form.(fileSize := file.value.size, documentType := file.value.mime);
      }
    }

    /** The reader's `onload`: the document text becomes the first thousand
        characters of the file's text; nothing else changes. */
    method OnFileRead(text: string)
      modifies this`form
      ensures form == old(form).(documentText := Substring(text, 0, TextLimit))
      ensures |form.documentText| == Min(TextLimit, |text|)
      ensures form.documentText == text[..Min(TextLimit, |text|)]
    {
      SubstringPrefix(text, TextLimit);
      form := form.(documentText := Substring(text, 0, TextLimit));
    }

    /** `handleInputChange` for the title and notes inputs. */
    method HandleInputChange(input: TextInput, value: string)
      modifies this`form
      ensures form == match input
        case TitleInput => old(form).(title := value)
        case NotesInput => old(form).(notes := value)
    {
      match input
      case TitleInput => form := form.(title := value);
      case NotesInput => form := form.(notes := value);
    }

    method OpenSubmitModal()
      modifies this`showSubmitModal
      ensures showSubmitModal
    {
      showSubmitModal := true;
    }

    method CloseSubmitModal()
      modifies this`showSubmitModal
      ensures !showSubmitModal
    {
      showSubmitModal := false;
    }

    /** `submitDocument`.  Without a selected file it only reports that one is
        needed.  Otherwise `SubmitArgs(form)` is sent when there is a handle
        (a missing one throws).  Success closes the modal, drops the file,
        empties the form and reloads the list; a failed result reports its
        message; a throw reports the bare failure and keeps everything else. */
    method SubmitDocument(reply: Reply<SuccessFlag>, reload: ListCall<Value>)
      returns (sent: Option<SubmitCall>)
      modifies this`submissions, this`loading, this`error, this`showSubmitModal, this`selectedFile, this`form
      ensures sent.Some? <==> old(selectedFile).Some? && service.Some?
      ensures sent.Some? ==> sent.value == SubmitArgs(old(form))
      ensures old(selectedFile).None? ==>
        error == Some("Please select a file to upload") && form == old(form)
        && selectedFile == old(selectedFile) && showSubmitModal == old(showSubmitModal)
        && submissions == old(submissions) && loading == old(loading)
      ensures var done := sent.Some? && reply.Resolved? && reply.value.success;
        && (done ==> !showSubmitModal && selectedFile.None? && form == EmptyForm && !loading)
        && (done ==>
              if reload.CallThrew? then submissions == old(submissions) && error == Some("Failed to load submissions")
              else submissions == ListOrEmpty(reload) && error.None?)
        && (old(selectedFile).Some? && !done ==>
              form == old(form) && selectedFile == old(selectedFile)
              && showSubmitModal == old(showSubmitModal) && submissions == old(submissions)
              && loading == old(loading))
        && (old(selectedFile).Some? && !done && (sent.None? || reply.Threw?) ==>
              error == Some("Failed to submit document"))
        && (sent.Some? && reply.Resolved? && !reply.value.success ==>
              error == Some("Failed to submit document: " + Display(reply.value.message)))
    {
      error := None;
      if selectedFile.None? {
        error := Some("Please select a file to upload");
        return None;
      }
      if service.None? {
        error := Some("Failed to submit document");
        return None;
      }
      sent := Some(SubmitArgs(form));
      if reply.Threw? {
        error := Some("Failed to submit document");
      } else if reply.value.success {
        showSubmitModal := false;
        selectedFile := None;
        form := EmptyForm;
        var _ := LoadSubmissions(reload);
      } else {
        error := Some("Failed to submit document: " + Display(reply.value.message));
      }
    }
  }
}
