/** The standalone consultation-response form of
    `src/components/ConsultationForm.jsx`: its draft, its submit handler and
    the callback it reports a success through. */
module ConsultationFormComponent {
  import opened Results
  import opened Js
  import opened Api
  import opened ConsultationRules

  /** What `err.message` holds when `onSuccess(consultation.id)` reads the id
      of an absent consultation (the wording of V8's TypeError). */
  const NoConsultationMessage := "Cannot read properties of undefined (reading 'id')"

  /** The payload the form posts: `{ ...consultation }` when a consultation
      was passed, null otherwise. */
  function FormPayload(d: Draft, consultation: Option<Consultation>): (p: ResponsePayload)
    ensures consultation.None? ==> p.consultation == None
    ensures consultation.Some? ==> p.consultation == Some(SpreadSnapshot(consultation.value))
    ensures p == BuildResponse(d, p.consultation)
  {
    BuildResponse(d, if consultation.Some? then Some(SpreadSnapshot(consultation.value)) else None)
  }

  /** The form posts a consultation exactly as it was passed: reading every
      field of the snapshot gives the consultation back. */
  lemma FormSnapshotRoundTrip(d: Draft, c: Consultation)
    ensures var s := FormPayload(d, Some(c)).consultation.value;
      Consultation(s.id.value, s.impulseId.value, s.forename.value, s.surname.value,
                   s.settingName.value, s.idConsult.value, s.phaseId.value, s.dueDate.value) == c
  {
  }

  /** The message the form shows after a valid submission: "" on success,
      else the message of what went wrong. */
  function SubmitOutcome(consultation: Option<Consultation>, ack: Result<Ack>): (m: string)
    ensures ack.Err? ==> m == ack.message
    ensures ack.Ok? ==> (m == "" <==> consultation.Some?)
  {
    match ack
    case Err(e) => e
    case Ok(_) => if consultation.Some? then "" else NoConsultationMessage
  }

  class ConsultationForm {
    /** The `consultation` prop; None when it is not passed. */
    const consultation: Option<Consultation>
    var formData: Draft
    var submitMessage: string

    constructor(consultation: Option<Consultation>)
      ensures this.consultation == consultation && formData == Initial && submitMessage == ""
    {
      this.consultation := consultation;
      formData := Initial;
      submitMessage := "";
    }

    /** `updateForm(field, value)` */
    method UpdateForm(f: Field, v: string)
      modifies this
      ensures formData == old(formData).With(f, v) && submitMessage == old(submitMessage)
    {
      formData := formData.With(f, v);
    }

    /** The "Clear form" button. */
    method ClearForm()
      modifies this
      ensures formData == Initial && submitMessage == old(submitMessage)
    {
      formData := Initial;
    }

    /** `handleSubmit`, with `reply` the flow's answer. Returns what was
        posted and the id passed to `onSuccess`. The draft is kept in every
        case: the form does not clear itself. */
    method HandleSubmit(flowUrl: string, reply: Reply)
      returns (posted: Option<ResponsePayload>, notified: Option<string>)
      modifies this
      ensures formData == old(formData)
      ensures posted.Some? <==> Complete(formData)
      ensures posted.Some? ==> posted.value == FormPayload(formData, consultation)
      ensures notified.Some? <==> posted.Some? && PostToFlow(flowUrl, reply).Ok? && consultation.Some?
      ensures notified.Some? ==> notified.value == consultation.value.id
      ensures posted.None? ==> submitMessage == old(submitMessage)
      ensures posted.Some? ==> submitMessage == SubmitOutcome(consultation, PostToFlow(flowUrl, reply))
    {
      FormIsValidIffComplete(formData);
      posted, notified := None, None;
      if !FormIsValid(formData) {
        return;
      }
      submitMessage := "";
      posted := Some(FormPayload(formData, consultation));
      match PostToFlow(flowUrl, reply)
      case Err(m) =>
        submitMessage := m;
      case Ok(_) =>
        if consultation.Some? {
          notified := Some(consultation.value.id);
        } else {
          submitMessage := NoConsultationMessage;
        }
    }
  }
}
