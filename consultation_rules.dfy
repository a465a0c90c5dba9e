/** The consultation-response draft, its completeness rule and its submit
    payload. The rule appears twice in the source: `isValid` in
    `src/components/ConsultationForm.jsx` and `consultationVisibleValid` in
    `src/Dashboard.jsx`. Both are written out here as they stand and shown to
    agree with one reference definition: a table of required fields. */
module ConsultationRules {
  import opened Results
  import opened Js
  import opened Api

  /** The nine fields of the draft. */
  datatype Field =
    | SuitableSetting | SuitableReasoning | AttendanceIncompatible | AttendanceReasoning
    | ProposedStartDate | BandingOrFunding | AdditionalInfo | ResponderName | ResponderRole

  datatype Draft = Draft(
    suitableSetting: string, suitableReasoning: string,
    attendanceIncompatible: string, attendanceReasoning: string,
    proposedStartDate: string, bandingOrFunding: string, additionalInfo: string,
    responderName: string, responderRole: string)
  {
    function Get(f: Field): string {
      match f
      case SuitableSetting => suitableSetting
      case SuitableReasoning => suitableReasoning
      case AttendanceIncompatible => attendanceIncompatible
      case AttendanceReasoning => attendanceReasoning
      case ProposedStartDate => proposedStartDate
      case BandingOrFunding => bandingOrFunding
      case AdditionalInfo => additionalInfo
      case ResponderName => responderName
      case ResponderRole => responderRole
    }

    /** `{ ...prev, [field]: value }`: the named field takes the value and
        every other field keeps its own. */
    function With(f: Field, v: string): (d: Draft)
      ensures d.Get(f) == v
      ensures forall g :: g != f ==> d.Get(g) == Get(g)
    {
      match f
      case SuitableSetting => this.(suitableSetting := v)
      case SuitableReasoning => this.(suitableReasoning := v)
      case AttendanceIncompatible => this.(attendanceIncompatible := v)
      case AttendanceReasoning => this.(attendanceReasoning := v)
      case ProposedStartDate => this.(proposedStartDate := v)
      case BandingOrFunding => this.(bandingOrFunding := v)
      case AdditionalInfo => this.(additionalInfo := v)
      case ResponderName => this.(responderName := v)
      case ResponderRole => this.(responderRole := v)
    }
  }

  /** `initialForm`, and what `resetConsultationForm` sets the nine fields to. */
  const Initial := Draft("", "", "", "", "", "", "", "", "")

  lemma InitialIsBlank(f: Field)
    ensures Initial.Get(f) == ""
  {
  }

  predicate IsAnswer(s: string) {
    s == "Yes" || s == "No"
  }

  /** The placement details are asked for when the setting is suitable and
      attendance is compatible. */
  predicate PlacementApplies(d: Draft) {
    d.suitableSetting == "Yes" && d.attendanceIncompatible == "No"
  }

  // ----- The reference rule: a table of required fields -----

  /** The table of conditional requirements: whether the current answers make
      field `f` required. The two answers themselves are checked separately. */
  predicate Required(d: Draft, f: Field) {
    match f
    case ResponderName => true
    case ResponderRole => true
    case SuitableReasoning => d.suitableSetting == "No"
    case AttendanceReasoning => d.attendanceIncompatible == "Yes"
    case ProposedStartDate => PlacementApplies(d)
    case BandingOrFunding => PlacementApplies(d)
    case AdditionalInfo => PlacementApplies(d)
    case SuitableSetting => false
    case AttendanceIncompatible => false
  }

  /** Both questions answered Yes or No, and every required field non-blank. */
  predicate Complete(d: Draft) {
    && IsAnswer(d.suitableSetting)
    && IsAnswer(d.attendanceIncompatible)
    && forall f :: Required(d, f) ==> NonBlank(d.Get(f))
  }

  // ----- The two copies in the source -----

  /** `isValid` of the form component, term by term (`NonBlank(x)` is
      `x.trim().length > 0`). */
  predicate FormIsValid(d: Draft) {
    && (d.suitableSetting == "Yes" || d.suitableSetting == "No")
    && (d.attendanceIncompatible == "Yes" || d.attendanceIncompatible == "No")
    && NonBlank(d.responderName)
    && NonBlank(d.responderRole)
    && (d.suitableSetting != "No" || NonBlank(d.suitableReasoning))
    && (d.attendanceIncompatible != "Yes" || NonBlank(d.attendanceReasoning))
    && !(d.suitableSetting == "Yes" && d.attendanceIncompatible == "No"
         && (!NonBlank(d.proposedStartDate) || !NonBlank(d.bandingOrFunding)
             || !NonBlank(d.additionalInfo)))
  }

  /** `consultationVisibleValid` of the dashboard: the same terms behind
      `!!selectedConsultationId`. */
  predicate VisibleValid(selected: Option<string>, d: Draft) {
    && (selected.Some? && selected.value != "")
    && (d.suitableSetting == "Yes" || d.suitableSetting == "No")
    && (d.attendanceIncompatible == "Yes" || d.attendanceIncompatible == "No")
    && NonBlank(d.responderName)
    && NonBlank(d.responderRole)
    && (d.suitableSetting != "No" || NonBlank(d.suitableReasoning))
    && (d.attendanceIncompatible != "Yes" || NonBlank(d.attendanceReasoning))
    && !(d.suitableSetting == "Yes" && d.attendanceIncompatible == "No"
         && (!NonBlank(d.proposedStartDate) || !NonBlank(d.bandingOrFunding)
             || !NonBlank(d.additionalInfo)))
  }

  /** The form's `isValid` is exactly the table rule. */
  lemma FormIsValidIffComplete(d: Draft)
    ensures FormIsValid(d) <==> Complete(d)
  {
    if FormIsValid(d) {
      forall f | Required(d, f) ensures NonBlank(d.Get(f)) {
        match f
        case ResponderName =>
        case ResponderRole =>
        case SuitableReasoning =>
        case AttendanceReasoning =>
        case ProposedStartDate =>
        case BandingOrFunding =>
        case AdditionalInfo =>
      }
    }
    if Complete(d) {
      assert NonBlank(d.Get(ResponderName)) && NonBlank(d.Get(ResponderRole));
      assert d.suitableSetting == "No" ==> NonBlank(d.Get(SuitableReasoning));
      assert d.attendanceIncompatible == "Yes" ==> NonBlank(d.Get(AttendanceReasoning));
      assert PlacementApplies(d) ==>
        NonBlank(d.Get(ProposedStartDate)) && NonBlank(d.Get(BandingOrFunding)) && NonBlank(d.Get(AdditionalInfo));
    }
  }

  /** The dashboard's rule is the table rule plus a selected consultation;
      with nothing selected it is false whatever the fields hold. */
  lemma VisibleValidIffSelectedAndComplete(selected: Option<string>, d: Draft)
    ensures VisibleValid(selected, d) <==> selected.Some? && selected.value != "" && Complete(d)
    ensures selected == None ==> !VisibleValid(selected, d)
  {
    FormIsValidIffComplete(d);
  }

  /** An unanswered or otherwise-answered question makes the draft incomplete. */
  lemma UnsetAnswerIncomplete(d: Draft)
    requires !IsAnswer(d.suitableSetting) || !IsAnswer(d.attendanceIncompatible)
    ensures !FormIsValid(d) && !Complete(d)
  {
  }

  /** "No" on suitability needs its reasoning, "Yes" on attendance needs its
      reasoning: blanking that field makes a complete draft incomplete. */
  lemma ReasoningRequired(d: Draft, blank: string)
    requires Complete(d) && !NonBlank(blank)
    ensures d.suitableSetting == "No" ==> !Complete(d.With(SuitableReasoning, blank))
    ensures d.attendanceIncompatible == "Yes" ==> !Complete(d.With(AttendanceReasoning, blank))
  {
    if d.suitableSetting == "No" {
      assert Required(d.With(SuitableReasoning, blank), SuitableReasoning);
    }
    if d.attendanceIncompatible == "Yes" {
      assert Required(d.With(AttendanceReasoning, blank), AttendanceReasoning);
    }
  }

  /** With Yes/No answers, blanking any one of the three placement fields
      makes a complete draft incomplete; with other answers they do not matter. */
  lemma PlacementFieldsRequired(d: Draft, f: Field, v: string)
    requires Complete(d) && f in {ProposedStartDate, BandingOrFunding, AdditionalInfo}
    ensures PlacementApplies(d) && !NonBlank(v) ==> !Complete(d.With(f, v))
    ensures !PlacementApplies(d) ==> Complete(d.With(f, v))
  {
    var e := d.With(f, v);
    assert PlacementApplies(e) == PlacementApplies(d);
    if PlacementApplies(d) && !NonBlank(v) {
      assert Required(e, f) && e.Get(f) == v;
    }
    if !PlacementApplies(d) {
      forall g | Required(e, g) ensures NonBlank(e.Get(g)) {
        assert g != f && Required(d, g);
      }
    }
  }

  // ----- The submit payload -----

  /** A consultation as embedded in the payload; None stands for JSON null. */
  datatype Snapshot = Snapshot(
    id: Option<string>, impulseId: Option<string>, forename: Option<string>,
    surname: Option<string>, settingName: Option<string>, idConsult: Option<string>,
    phaseId: Option<string>, dueDate: Option<string>)

  /** The `CONSULTATION_RESPONSE` payload; None stands for JSON null. */
  datatype ResponsePayload = ResponsePayload(
    kind: string,
    suitableSetting: Option<string>, suitableReasoning: Option<string>,
    attendanceIncompatible: Option<string>, attendanceReasoning: Option<string>,
    proposedStartDate: Option<string>, bandingOrFunding: Option<string>,
    additionalInfo: Option<string>,
    responderName: Option<string>, responderRole: Option<string>,
    consultation: Option<Snapshot>)

  /** `asString(s) || null` for a string `s`. */
  function OrNull(s: string): (r: Option<string>)
    ensures r == None <==> s == ""
    ensures r.Some? ==> r.value == s
  {
    var v := AsString(Str(s));
    if v != "" then Some(v) else None
  }

  /** `{ ...consultation }` as the form component embeds it: every field as is. */
  function SpreadSnapshot(c: Consultation): Snapshot {
    Snapshot(Some(c.id), Some(c.impulseId), Some(c.forename), Some(c.surname),
             Some(c.settingName), Some(c.idConsult), Some(c.phaseId), Some(c.dueDate))
  }

  /** The dashboard's snapshot: every field `asString(x) || null`. */
  function NulledSnapshot(c: Consultation): Snapshot {
    Snapshot(OrNull(c.id), OrNull(c.impulseId), OrNull(c.forename), OrNull(c.surname),
             OrNull(c.settingName), OrNull(c.idConsult), OrNull(c.phaseId), OrNull(c.dueDate))
  }

  /** A field of a snapshot read back, null as "". */
  function OrEmpty(o: Option<string>): string {
    if o.Some? then o.value else ""
  }

  /** The dashboard's snapshot loses nothing: reading every field back, with
      null as "", gives the consultation. */
  lemma NulledSnapshotRoundTrip(c: Consultation)
    ensures var s := NulledSnapshot(c);
      Consultation(OrEmpty(s.id), OrEmpty(s.impulseId), OrEmpty(s.forename), OrEmpty(s.surname),
                   OrEmpty(s.settingName), OrEmpty(s.idConsult), OrEmpty(s.phaseId), OrEmpty(s.dueDate)) == c
    ensures var s := NulledSnapshot(c);
      (s.id == None <==> c.id == "") && (s.impulseId == None <==> c.impulseId == "")
      && (s.forename == None <==> c.forename == "") && (s.surname == None <==> c.surname == "")
      && (s.settingName == None <==> c.settingName == "") && (s.idConsult == None <==> c.idConsult == "")
      && (s.phaseId == None <==> c.phaseId == "") && (s.dueDate == None <==> c.dueDate == "")
  {
  }

  /** The payload both components build: each conditional field is null unless
      its guard holds, and an empty string is sent as null. */
  function BuildResponse(d: Draft, consultation: Option<Snapshot>): (p: ResponsePayload)
    ensures p.kind == "CONSULTATION_RESPONSE" && p.consultation == consultation
    ensures d.suitableSetting != "No" ==> p.suitableReasoning == None
    ensures d.attendanceIncompatible != "Yes" ==> p.attendanceReasoning == None
    ensures !PlacementApplies(d) ==>
              p.proposedStartDate == None && p.bandingOrFunding == None && p.additionalInfo == None
  {
    var placement := PlacementApplies(d);
    ResponsePayload(
      kind := "CONSULTATION_RESPONSE",
      suitableSetting := OrNull(d.suitableSetting),
      suitableReasoning := if d.suitableSetting == "No" then OrNull(d.suitableReasoning) else None,
      attendanceIncompatible := OrNull(d.attendanceIncompatible),
      attendanceReasoning := if d.attendanceIncompatible == "Yes" then OrNull(d.attendanceReasoning) else None,
      proposedStartDate := if placement then OrNull(d.proposedStartDate) else None,
      bandingOrFunding := if placement then OrNull(d.bandingOrFunding) else None,
      additionalInfo := if placement then OrNull(d.additionalInfo) else None,
      responderName := OrNull(d.responderName),
      responderRole := OrNull(d.responderRole),
      consultation := consultation)
  }

  /** A complete draft yields a payload with no null required field: both
      answers and both responder fields are sent as entered. */
  lemma CompleteDraftSendsRequired(d: Draft, consultation: Option<Snapshot>)
    requires Complete(d)
    ensures var p := BuildResponse(d, consultation);
      && p.suitableSetting == Some(d.suitableSetting)
      && p.attendanceIncompatible == Some(d.attendanceIncompatible)
      && p.responderName == Some(d.responderName)
      && p.responderRole == Some(d.responderRole)
  {
    assert NonBlank(d.Get(ResponderName)) && NonBlank(d.Get(ResponderRole));
    BlankIffAllWhitespace(d.responderName);
    BlankIffAllWhitespace(d.responderRole);
  }

  /** In the payload of a complete draft each reasoning is sent, as entered,
      exactly when its answer asks for it, and is null otherwise. */
  lemma CompleteDraftSendsReasoning(d: Draft, consultation: Option<Snapshot>)
    requires Complete(d)
    ensures var p := BuildResponse(d, consultation);
      && (p.suitableReasoning != None <==> d.suitableSetting == "No")
      && (p.suitableReasoning != None ==> p.suitableReasoning == Some(d.suitableReasoning))
      && (p.attendanceReasoning != None <==> d.attendanceIncompatible == "Yes")
      && (p.attendanceReasoning != None ==> p.attendanceReasoning == Some(d.attendanceReasoning))
  {
    if d.suitableSetting == "No" {
      assert NonBlank(d.Get(SuitableReasoning));
      BlankIffAllWhitespace(d.suitableReasoning);
    }
    if d.attendanceIncompatible == "Yes" {
      assert NonBlank(d.Get(AttendanceReasoning));
      BlankIffAllWhitespace(d.attendanceReasoning);
    }
  }

  /** In the payload of a complete draft the three placement fields are sent,
      as entered, exactly when the answers are Yes and No, and are null otherwise. */
  lemma CompleteDraftSendsPlacement(d: Draft, consultation: Option<Snapshot>)
    requires Complete(d)
    ensures var p := BuildResponse(d, consultation);
      && (p.proposedStartDate != None <==> PlacementApplies(d))
      && (p.bandingOrFunding != None <==> PlacementApplies(d))
      && (p.additionalInfo != None <==> PlacementApplies(d))
      && (PlacementApplies(d) ==>
            && p.proposedStartDate == Some(d.proposedStartDate)
            && p.bandingOrFunding == Some(d.bandingOrFunding)
            && p.additionalInfo == Some(d.additionalInfo))
  {
    if PlacementApplies(d) {
      assert NonBlank(d.Get(ProposedStartDate));
      assert NonBlank(d.Get(BandingOrFunding));
      assert NonBlank(d.Get(AdditionalInfo));
      BlankIffAllWhitespace(d.proposedStartDate);
      BlankIffAllWhitespace(d.bandingOrFunding);
      BlankIffAllWhitespace(d.additionalInfo);
    }
  }
}
