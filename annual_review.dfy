/** The annual-review submission: the standalone form of
    `src/components/AnnualReviewForm.jsx` and the rules it shares with the
    dashboard's own copy (validity, the attachment encoding, the payload). */
module AnnualReview {
  import opened Results
  import opened Js
  import opened Api
  import opened FileDropzone

  /** The form's state `arData`. */
  datatype ArDraft = ArDraft(impulseId: string, dob: string, reviewDate: string,
                             recommendation: string, attachments: seq<File>)

  /** The four text inputs. */
  datatype ArField = ImpulseId | Dob | ReviewDate | Recommendation

  /** `setArData((p) => ({ ...p, [field]: v }))` for one text input. */
  function WithField(d: ArDraft, f: ArField, v: string): (r: ArDraft)
    ensures r.attachments == d.attachments
    ensures r.impulseId == (if f == ImpulseId then v else d.impulseId)
    ensures r.dob == (if f == Dob then v else d.dob)
    ensures r.reviewDate == (if f == ReviewDate then v else d.reviewDate)
    ensures r.recommendation == (if f == Recommendation then v else d.recommendation)
  {
    match f
    case ImpulseId => d.(impulseId := v)
    case Dob => d.(dob := v)
    case ReviewDate => d.(reviewDate := v)
    case Recommendation => d.(recommendation := v)
  }

  /** The state the form starts in and returns to after a submission. */
  const EmptyArDraft := ArDraft("", "", "", "", [])

  /** The three choices the recommendation select offers besides "Select…". */
  const RecommendationOptions: seq<string> := ["No Change", "Notice of Amendment", "Proposal to Cease"]

  /** `isValid`: four non-blank inputs and at least one attachment. */
  predicate ArValid(d: ArDraft) {
    && NonBlank(d.impulseId)
    && NonBlank(d.dob)
    && NonBlank(d.reviewDate)
    && NonBlank(d.recommendation)
    && |d.attachments| > 0
  }

  /** A draft is valid exactly when no input is all whitespace and a file is
      attached; the empty draft is not valid. */
  lemma ArValidIff(d: ArDraft)
    ensures ArValid(d) <==>
      && !AllWhitespace(d.impulseId) && !AllWhitespace(d.dob)
      && !AllWhitespace(d.reviewDate) && !AllWhitespace(d.recommendation)
      && d.attachments != []
    ensures !ArValid(EmptyArDraft)
  {
    BlankIffAllWhitespace(d.impulseId);
    BlankIffAllWhitespace(d.dob);
    BlankIffAllWhitespace(d.reviewDate);
    BlankIffAllWhitespace(d.recommendation);
    BlankIffAllWhitespace("");
  }

  /** The recommendation is only checked for being non-blank: a value other
      than the three options passes. */
  lemma RecommendationNotChecked(d: ArDraft)
    requires ArValid(d)
    ensures ArValid(d.(recommendation := "x")) && "x" !in RecommendationOptions
  {
    BlankIffAllWhitespace("x");
  }

  // ----- Attachments -----

  /** `String(reader.result).split(",")[1] || ""`: the text between the first
      and the second comma of the data URL, or "" when there is no comma. */
  function Base64Part(dataUrl: string): (r: string)
    ensures ',' !in r
  {
    if dataUrl == [] then ""
    else if dataUrl[0] == ',' then UpToComma(dataUrl[1..])
    else Base64Part(dataUrl[1..])
  }

  /** The text before the first comma, or all of it. */
  function UpToComma(s: string): (r: string)
    ensures ',' !in r
  {
    if s == [] || s[0] == ',' then "" else [s[0]] + UpToComma(s[1..])
  }

  /** A data URL `{header},{payload}` whose header and payload hold no comma
      yields its payload. */
  lemma {:induction false} Base64PartOfDataUrl(header: string, payload: string)
    requires ',' !in header && ',' !in payload
    ensures Base64Part(header + "," + payload) == payload
  {
    if header == [] {
      assert (header + "," + payload)[1..] == payload;
      UpToCommaWhole(payload);
    } else {
      assert (header + "," + payload)[1..] == header[1..] + "," + payload;
      Base64PartOfDataUrl(header[1..], payload);
    }
  }

  lemma {:induction false} UpToCommaWhole(s: string)
    requires ',' !in s
    ensures UpToComma(s) == s
  {
    if s != [] {
      UpToCommaWhole(s[1..]);
    }
  }

  /** One entry of the `attachments` array. */
  datatype AttachmentPayload = AttachmentPayload(name: string, contentType: string, contentBase64: string)

  const DefaultContentType := "application/octet-stream"

  /** `f.type || "application/octet-stream"` */
  function ContentType(f: File): (r: string)
    ensures r != ""
    ensures f.mimeType != "" ==> r == f.mimeType
  {
    if f.mimeType != "" then f.mimeType else DefaultContentType
  }

  /** `Promise.all(files.map(...))`: `read(f)` is what `readAsDataURL` produces
      for `f`, None when the reader fails; one failure rejects the whole. */
  function EncodeAttachments(files: seq<File>, read: File -> Option<string>): (r: Option<seq<AttachmentPayload>>)
    ensures r.Some? <==> forall i :: 0 <= i < |files| ==> read(files[i]).Some?
    ensures r.Some? ==> |r.value| == |files|
    ensures r.Some? ==> forall i :: 0 <= i < |files| ==>
      r.value[i] == AttachmentPayload(files[i].name, ContentType(files[i]), Base64Part(read(files[i]).value))
  {
    if files == [] then Some([])
    else
      var f := files[0];
      match read(f)
      case None => None
      case Some(url) =>
        match EncodeAttachments(files[1..], read)
        case None =>
          assert forall i :: 1 <= i < |files| ==> files[1..][i - 1] == files[i];
          None
        case Some(rest) =>
          Some([AttachmentPayload(f.name, ContentType(f), Base64Part(url))] + rest)
  }

  // ----- The payload -----

  /** The body posted for an annual review. */
  datatype ArPayload = ArPayload(kind: string, impulseId: string, dob: string, reviewDate: string,
                                 recommendation: string, attachments: seq<AttachmentPayload>)

  const AnnualReviewKind := "ANNUAL_REVIEW"

  /** `{ type: "ANNUAL_REVIEW", impulseId: asString(...), ..., attachments }` */
  function BuildArPayload(d: ArDraft, attachments: seq<AttachmentPayload>): (p: ArPayload)
    ensures p.kind == AnnualReviewKind && p.attachments == attachments
    ensures p.impulseId == d.impulseId && p.dob == d.dob
    ensures p.reviewDate == d.reviewDate && p.recommendation == d.recommendation
  {
    ArPayload(AnnualReviewKind, AsString(Str(d.impulseId)), AsString(Str(d.dob)),
              AsString(Str(d.reviewDate)), AsString(Str(d.recommendation)), attachments)
  }

  /** What a submission posts: nothing for an invalid draft or when a file
      cannot be read, else the payload with one attachment per file. */
  function SubmittedPayload(d: ArDraft, read: File -> Option<string>): Option<ArPayload> {
    if !ArValid(d) then None
    else match EncodeAttachments(d.attachments, read)
      case None => None
      case Some(atts) => Some(BuildArPayload(d, atts))
  }

  /** A posted payload carries the draft's four fields and one attachment per
      file, in order, each named after its file; so it is never empty. */
  lemma PostedPayloadMatchesDraft(d: ArDraft, read: File -> Option<string>)
    requires SubmittedPayload(d, read).Some?
    ensures var p := SubmittedPayload(d, read).value;
      && ArValid(d)
      && p.kind == AnnualReviewKind
      && p.impulseId == d.impulseId && p.dob == d.dob
      && p.reviewDate == d.reviewDate && p.recommendation == d.recommendation
      && |p.attachments| == |d.attachments| > 0
      && forall i :: 0 <= i < |d.attachments| ==>
           p.attachments[i].name == d.attachments[i].name && p.attachments[i].contentType != ""
  {
  }

  /** The message `err.message` shows when a file cannot be read: the reader's
      error event has no `message`, so the alert stays empty. */
  const ReadFailureMessage := ""

  /** The standalone annual-review form. The `submitting` flag is not kept:
      each handler runs as one step. */
  class AnnualReviewForm {
    var arData: ArDraft
    var submitMessage: string

    constructor()
      ensures arData == EmptyArDraft && submitMessage == ""
    {
      arData := EmptyArDraft;
      submitMessage := "";
    }

    /** An input's onChange. */
    method SetField(f: ArField, v: string)
      modifies this
      ensures arData == WithField(old(arData), f, v) && submitMessage == old(submitMessage)
    {
      arData := WithField(arData, f, v);
    }

    /** The dropzone's onChange. */
    method SetAttachments(files: seq<File>)
      modifies this
      ensures arData == old(arData).(attachments := files) && submitMessage == old(submitMessage)
    {
      arData := arData.(attachments := files);
    }

    /** `handleSubmit`: `read` stands for the file reader and `reply` for the
        flow's answer. Returns what was posted and whether `onSuccess` was
        called. */
    method HandleSubmit(flowUrl: string, read: File -> Option<string>, reply: Reply)
      returns (posted: Option<ArPayload>, succeeded: bool)
      modifies this
      ensures posted == SubmittedPayload(old(arData), read)
      ensures succeeded <==> posted.Some? && PostToFlow(flowUrl, reply).Ok?
      ensures !ArValid(old(arData)) ==> arData == old(arData) && submitMessage == old(submitMessage)
      ensures succeeded ==> arData == EmptyArDraft && submitMessage == ""
      ensures ArValid(old(arData)) && !succeeded ==>
        arData == old(arData)
        && submitMessage == (if posted.None? then ReadFailureMessage else PostToFlow(flowUrl, reply).message)
    {
      posted := SubmittedPayload(arData, read);
      succeeded := false;
      if !ArValid(arData) {
        return;
      }
      submitMessage := "";
      match posted
      case None =>
        submitMessage := ReadFailureMessage;
      case Some(p) =>
        match PostToFlow(flowUrl, reply)
        case Err(m) =>
          submitMessage := m;
        case Ok(_) =>
          arData := EmptyArDraft;
          succeeded := true;
    }
  }
}
