/** The portal page of `src/Dashboard.jsx`: login (by saved credentials, by
    the login form, or by a token in the address), the consultation list, the
    inline consultation-response and annual-review forms, and navigation. */
module DashboardPage {
  import opened Results
  import opened Js
  import opened Api
  import opened DueDates
  import opened ConsultationRules
  import opened FileDropzone
  import opened AnnualReview

  /** The four views of the sidebar. */
  datatype View = Home | Consultations | PhaseTransfer | AnnualReviews

  /** Every view, in the sidebar's order. */
  const AllViews: seq<View> := [Home, Consultations, PhaseTransfer, AnnualReviews]

  /** An item's `show`: home for everyone, the rest only to a signed-in or
      token user. */
  predicate Shown(v: View, canSeePortalViews: bool) {
    v == Home || canSeePortalViews
  }

  /** `.filter((x) => x.show)` */
  function ShownViews(vs: seq<View>, canSeePortalViews: bool): seq<View> {
    if vs == [] then []
    else (if Shown(vs[0], canSeePortalViews) then [vs[0]] else []) + ShownViews(vs[1..], canSeePortalViews)
  }

  /** The sidebar's items: home first, then the other three views in order
      when they may be seen, and home alone otherwise. */
  function MenuItems(canSeePortalViews: bool): (r: seq<View>)
    ensures forall v :: v in r <==> Shown(v, canSeePortalViews)
    ensures |r| > 0 && r[0] == Home
    ensures !canSeePortalViews ==> r == [Home]
    ensures canSeePortalViews ==> r == AllViews
  {
    ShownViewsOfAll(canSeePortalViews);
    ShownViews(AllViews, canSeePortalViews)
  }

  /** Filtering the four views, one at a time. */
  lemma ShownViewsOfAll(canSeePortalViews: bool)
    ensures ShownViews(AllViews, canSeePortalViews) == if canSeePortalViews then AllViews else [Home]
  {
    var c := canSeePortalViews;
    var tail3: seq<View> := [Consultations, PhaseTransfer, AnnualReviews];
    var tail2: seq<View> := [PhaseTransfer, AnnualReviews];
    var tail1: seq<View> := [AnnualReviews];
    assert AllViews[1..] == tail3 && tail3[1..] == tail2 && tail2[1..] == tail1 && tail1[1..] == [];
    assert ShownViews(tail1, c) == if c then tail1 else [];
    assert ShownViews(tail2, c) == if c then tail2 else [];
    assert ShownViews(tail3, c) == if c then tail3 else [];
  }

  /** The value under `senarPortalLogin` in local storage: none, the object
      `persistLogin` wrote, or text `JSON.parse` rejects. An object without
      the two properties reads as `Saved` with empty strings. */
  datatype StoredLogin = Absent | Saved(dfe: string, schoolCode: string) | Malformed

  // ----- The list operations of the page -----

  /** `consultations.find((c) => c.id === selectedConsultationId)`: the first
      consultation with the selected id; a null selection matches nothing. */
  function FindById(cs: seq<Consultation>, id: Option<string>): (r: Option<Consultation>)
    ensures r.Some? ==> r.value in cs && id == Some(r.value.id)
    ensures r.None? <==> forall c :: c in cs ==> id != Some(c.id)
    ensures forall k :: 0 <= k < |cs| && id == Some(cs[k].id) && (forall j :: 0 <= j < k ==> id != Some(cs[j].id))
                        ==> r == Some(cs[k])
  {
    if cs == [] then None
    else if id == Some(cs[0].id) then Some(cs[0])
    else
      var r := FindById(cs[1..], id);
      assert forall k :: 1 <= k < |cs| ==> cs[1..][k - 1] == cs[k];
      r
  }

  /** `prev.filter((c) => c.id !== id)` */
  function RemoveById(cs: seq<Consultation>, id: string): (r: seq<Consultation>)
    ensures |r| <= |cs|
  {
    if cs == [] then []
    else (if cs[0].id != id then [cs[0]] else []) + RemoveById(cs[1..], id)
  }

  /** The filter keeps exactly the consultations with another id. */
  lemma {:induction false} RemoveByIdMembers(cs: seq<Consultation>, id: string)
    ensures forall c :: c in RemoveById(cs, id) <==> c in cs && c.id != id
  {
    if cs != [] {
      RemoveByIdMembers(cs[1..], id);
      assert cs == [cs[0]] + cs[1..];
    }
  }

  /** The filter distributes over concatenation. */
  lemma {:induction false} RemoveByIdConcat(a: seq<Consultation>, b: seq<Consultation>, id: string)
    ensures RemoveById(a + b, id) == RemoveById(a, id) + RemoveById(b, id)
  {
    if a != [] {
      RemoveByIdConcat(a[1..], b, id);
      assert (a + b)[1..] == a[1..] + b;
    } else {
      assert a + b == b;
    }
  }

  predicate IdsDistinct(cs: seq<Consultation>) {
    forall i, j :: 0 <= i < j < |cs| ==> cs[i].id != cs[j].id
  }

  /** With distinct ids, removing the id of the element at `k` removes that
      element alone and keeps the others in order. */
  lemma RemoveByIdRemovesOne(cs: seq<Consultation>, k: nat)
    requires IdsDistinct(cs) && k < |cs|
    ensures RemoveById(cs, cs[k].id) == cs[..k] + cs[k + 1..]
    ensures |RemoveById(cs, cs[k].id)| == |cs| - 1
  {
    var a, b := cs[..k], cs[k + 1..];
    OthersHaveOtherIds(cs, k);
    assert cs == a + [cs[k]] + b;
    RemoveByIdSplit(a, cs[k], b);
  }

  /** Removing the id of the one element that has it leaves the rest. */
  lemma RemoveByIdSplit(a: seq<Consultation>, x: Consultation, b: seq<Consultation>)
    requires forall j :: 0 <= j < |a| ==> a[j].id != x.id
    requires forall j :: 0 <= j < |b| ==> b[j].id != x.id
    ensures RemoveById(a + [x] + b, x.id) == a + b
  {
    var id := x.id;
    RemoveByIdConcat(a + [x], b, id);
    RemoveByIdConcat(a, [x], id);
    assert [x][1..] == [];
    assert RemoveById([x], id) == [];
    RemoveByIdAbsent(a, id);
    RemoveByIdAbsent(b, id);
    assert RemoveById(a + [x], id) == a;
  }

  /** With distinct ids, no element before or after `k` has its id. */
  lemma OthersHaveOtherIds(cs: seq<Consultation>, k: nat)
    requires IdsDistinct(cs) && k < |cs|
    ensures var a := cs[..k]; forall j :: 0 <= j < |a| ==> a[j].id != cs[k].id
    ensures var b := cs[k + 1..]; forall j :: 0 <= j < |b| ==> b[j].id != cs[k].id
  {
    var a, b := cs[..k], cs[k + 1..];
    forall j | 0 <= j < |a| ensures a[j].id != cs[k].id {
      assert a[j] == cs[j];
    }
    forall j | 0 <= j < |b| ensures b[j].id != cs[k].id {
      assert b[j] == cs[k + 1 + j];
    }
  }

  /** Removing an id no element has changes nothing. */
  lemma {:induction false} RemoveByIdAbsent(cs: seq<Consultation>, id: string)
    requires forall i :: 0 <= i < |cs| ==> cs[i].id != id
    ensures RemoveById(cs, id) == cs
  {
    if cs != [] {
      RemoveByIdAbsent(cs[1..], id);
      assert cs == [cs[0]] + cs[1..];
    }
  }

  /** The list mode numbers its consultations `c1, c2, ...`, so their ids are
      distinct. */
  lemma ListModeIdsDistinct(items: seq<Object>)
    ensures IdsDistinct(MapList(items))
  {
    forall i, j | 0 <= i < j < |items| ensures MapList(items)[i].id != MapList(items)[j].id {
      ListIdsDistinct(items, i, j);
    }
  }

  /** `data.find((c) => asString(c.idConsult).trim() === req)` */
  function FindByIdConsult(data: seq<Consultation>, req: string): (r: Option<Consultation>)
    ensures r.Some? ==> r.value in data && Trim(r.value.idConsult) == req
    ensures r.None? <==> forall i :: 0 <= i < |data| ==> Trim(data[i].idConsult) != req
    ensures forall k :: 0 <= k < |data| && Trim(data[k].idConsult) == req
                        && (forall j :: 0 <= j < k ==> Trim(data[j].idConsult) != req)
                        ==> r == Some(data[k])
  {
    if data == [] then None
    else if Trim(AsString(Str(data[0].idConsult))) == req then Some(data[0])
    else
      var r := FindByIdConsult(data[1..], req);
      assert forall k :: 1 <= k < |data| ==> data[1..][k - 1] == data[k];
      r
  }

  /** The token-mode selection: the consultation the address asks for when
      it is in the list, the first one when the address asks for none, and
      the whole list otherwise. */
  function SelectForToken(data: seq<Consultation>, req: string): (r: seq<Consultation>)
    ensures forall c :: c in r ==> c in data
    ensures r == [] <==> data == []
  {
    var chosen := if req != "" then FindByIdConsult(data, req)
                  else if |data| > 0 then Some(data[0]) else None;
    if chosen.Some? then [chosen.value] else data
  }

  /** A selection from a one-element list is that list: the token-mode fetch
      yields exactly one consultation, so the selection never changes it. */
  lemma SelectFromSingle(data: seq<Consultation>, req: string)
    requires |data| <= 1
    ensures SelectForToken(data, req) == data
  {
  }

  /** A requested id that some consultation carries selects one such
      consultation alone: the first one that carries it. */
  lemma SelectRequested(data: seq<Consultation>, req: string, k: nat)
    requires req != "" && k < |data| && Trim(data[k].idConsult) == req
    ensures |SelectForToken(data, req)| == 1
    ensures Trim(SelectForToken(data, req)[0].idConsult) == req
    ensures (forall j :: 0 <= j < k ==> Trim(data[j].idConsult) != req) ==> SelectForToken(data, req) == [data[k]]
  {
    assert data[k] in data;
  }

  /** A requested id that no consultation carries keeps the whole list, and
      the selection is then the list's first id. */
  lemma SelectNoMatch(data: seq<Consultation>, req: string)
    requires req != "" && forall i :: 0 <= i < |data| ==> Trim(data[i].idConsult) != req
    ensures SelectForToken(data, req) == data
    ensures FirstId(SelectForToken(data, req)) == FirstId(data)
  {
  }

  /** Without a requested id the first consultation alone is kept. */
  lemma SelectDefault(data: seq<Consultation>)
    ensures SelectForToken(data, "") == data[..if |data| > 0 then 1 else 0]
  {
  }

  /** `data?.[0]?.settingName ?? ""` */
  function FirstSettingName(cs: seq<Consultation>): string {
    if |cs| > 0 then cs[0].settingName else ""
  }

  /** `single?.[0]?.id ?? null` */
  function FirstId(cs: seq<Consultation>): (r: Option<string>)
    ensures r.Some? <==> |cs| > 0
    ensures r.Some? ==> FindById(cs, r) == Some(cs[0])
  {
    if |cs| > 0 then Some(cs[0].id) else None
  }

  /** The dashboard's payload: the selected consultation, if it is in the
      list, with every field `asString(x) || null`. */
  function DashboardPayload(cs: seq<Consultation>, selected: Option<string>, d: Draft): (p: ResponsePayload)
    ensures FindById(cs, selected).None? ==> p.consultation == None
    ensures FindById(cs, selected).Some? ==>
      p.consultation.Some? && (selected.value != "" ==> p.consultation.value.id == selected)
    ensures FindById(cs, selected).Some? ==> p.consultation == Some(NulledSnapshot(FindById(cs, selected).value))
    ensures p == BuildResponse(d, p.consultation)
  {
    var sel := FindById(cs, selected);
    BuildResponse(d, if sel.Some? then Some(NulledSnapshot(sel.value)) else None)
  }

  /** The page's state. The `submitting` flag is not kept: each handler runs
      as one step, and so does each run of an effect. */
  class Dashboard {
    /** The address's query string and the build's endpoint URLs. */
    const query: Query
    const env: Env
    /** `tokenMode`: the address carries a non-empty `token`. */
    const tokenMode: bool

    var currentView: View
    var consultations: seq<Consultation>
    var selectedId: Option<string>
    var dfe: string
    var schoolCode: string
    var isLoggedIn: bool
    var loading: bool
    var portalError: string
    var logonRequested: bool
    var loggingIn: bool
    var portalSettingName: string
    var draft: Draft
    var submitMessage: string
    var arData: ArDraft
    /** Local storage under `senarPortalLogin`. */
    var stored: StoredLogin

    /** The first render, with `stored` what local storage holds. */
    constructor(query: Query, env: Env, stored: StoredLogin)
      ensures this.query == query && this.env == env && this.stored == stored
      ensures tokenMode == Truthy(QueryGet(query, "token"))
      ensures currentView == (if tokenMode then Consultations else Home)
      ensures consultations == [] && selectedId == None
      ensures dfe == "" && schoolCode == "" && portalError == "" && portalSettingName == ""
      ensures !isLoggedIn && loading && !logonRequested && !loggingIn
      ensures draft == Initial && submitMessage == "" && arData == EmptyArDraft
    {
      this.query := query;
      this.env := env;
      this.stored := stored;
      tokenMode := Truthy(QueryGet(query, "token"));
      currentView := if Truthy(QueryGet(query, "token")) then Consultations else Home;
      consultations, selectedId := [], None;
      dfe, schoolCode, portalError, portalSettingName := "", "", "", "";
      isLoggedIn, loading, logonRequested, loggingIn := false, true, false, false;
      draft, submitMessage, arData := Initial, "", EmptyArDraft;
    }

    /** `canSeePortalViews` */
    predicate CanSeePortalViews()
      reads this
    {
      isLoggedIn || tokenMode
    }

    /** `showLogin`: the login form shows exactly when neither a token nor a
        login lets the user in. */
    predicate ShowLogin()
      reads this
      ensures ShowLogin() <==> !CanSeePortalViews()
    {
      !tokenMode && !isLoggedIn
    }

    /** `canAttemptLogin` */
    predicate CanAttemptLogin()
      reads this
    {
      NonBlank(dfe) && NonBlank(schoolCode) && !loggingIn
    }

    /** `selectedConsultation` */
    function SelectedConsultation(): (r: Option<Consultation>)
      reads this
      ensures r.Some? ==> r.value in consultations && selectedId == Some(r.value.id)
      ensures r.None? <==> forall c :: c in consultations ==> selectedId != Some(c.id)
      ensures forall k :: 0 <= k < |consultations| && selectedId == Some(consultations[k].id)
                          && (forall j :: 0 <= j < k ==> selectedId != Some(consultations[j].id))
                          ==> r == Some(consultations[k])
    {
      FindById(consultations, selectedId)
    }

    /** The restore effect: outside token mode, saved credentials with both
        parts present are put in the inputs and a login is requested; the
        page stops loading. Text that does not parse makes the effect throw
        (`threw`), before anything changes. */
    method Restore() returns (threw: bool)
      modifies this
      ensures threw <==> !tokenMode && stored.Malformed?
      ensures tokenMode || threw ==>
        loading == old(loading) && dfe == old(dfe) && schoolCode == old(schoolCode)
        && logonRequested == old(logonRequested)
      ensures !tokenMode && !threw ==> !loading
      ensures !tokenMode && stored.Saved? && stored.dfe != "" && stored.schoolCode != "" ==>
        dfe == stored.dfe && schoolCode == stored.schoolCode && logonRequested
      ensures !(!tokenMode && stored.Saved? && stored.dfe != "" && stored.schoolCode != "") ==>
        dfe == old(dfe) && schoolCode == old(schoolCode) && logonRequested == old(logonRequested)
      ensures stored == old(stored) && consultations == old(consultations) && isLoggedIn == old(isLoggedIn)
      ensures selectedId == old(selectedId) && currentView == old(currentView) && portalError == old(portalError)
      ensures loggingIn == old(loggingIn) && portalSettingName == old(portalSettingName)
      ensures draft == old(draft) && submitMessage == old(submitMessage) && arData == old(arData)
    {
      threw := false;
      if tokenMode {
        return;
      }
      if stored.Malformed? {
        threw := true;
        return;
      }
      if stored.Saved? && stored.dfe != "" && stored.schoolCode != "" {
        dfe, schoolCode := stored.dfe, stored.schoolCode;
        logonRequested := true;
      }
      loading := false;
    }

    /** The load effect, with `encode` for `encodeURIComponent` and `fetch`
        for the transport: the token load in token mode, the portal load
        otherwise. */
    method Load(encode: string -> string, fetch: string -> Reply)
      modifies this
      ensures !loading
      ensures tokenMode ==> TokenLoaded(old(consultations), old(portalSettingName), old(currentView),
                                        old(selectedId), FetchConsultations(env, "", "", query, encode, fetch))
      ensures tokenMode ==> stored == old(stored) && loggingIn == old(loggingIn)
      ensures !tokenMode ==> PortalLoaded(old(logonRequested), old(consultations), old(portalSettingName),
                                          old(isLoggedIn), old(portalError), old(stored), old(loggingIn),
                                          FetchConsultations(env, Trim(dfe), Trim(schoolCode), query, encode, fetch))
      ensures !tokenMode ==> currentView == old(currentView) && selectedId == old(selectedId)
      ensures dfe == old(dfe) && schoolCode == old(schoolCode) && logonRequested == old(logonRequested)
      ensures draft == old(draft) && submitMessage == old(submitMessage) && arData == old(arData)
    {
      if tokenMode {
        LoadToken(FetchConsultations(env, "", "", query, encode, fetch));
      } else {
        LoadPortal(FetchConsultations(env, Trim(dfe), Trim(schoolCode), query, encode, fetch));
      }
    }

    /** The state after the token load, given the state before and what the
        fetch returned: the selection on success, the error otherwise. */
    ghost predicate TokenLoaded(cs0: seq<Consultation>, name0: string, view0: View, sel0: Option<string>,
                                r: Result<seq<Consultation>>)
      reads this
    {
      if r.Ok? then
        var single := SelectForToken(r.value, Trim(AsString(IdConsultParam(query))));
        && consultations == single && portalSettingName == FirstSettingName(single)
        && isLoggedIn && portalError == "" && currentView == Consultations
        && selectedId == FirstId(single)
      else
        && consultations == cs0 && portalSettingName == name0
        && !isLoggedIn && portalError == r.message && currentView == view0
        && selectedId == sel0
    }

    /** The state after the portal load: nothing until a login is requested;
        the error for blank credentials; else the fetched list with the
        credentials saved, or the error with the saved login cleared. */
    ghost predicate PortalLoaded(requested: bool, cs0: seq<Consultation>, name0: string, in0: bool,
                                 error0: string, stored0: StoredLogin, loggingIn0: bool,
                                 r: Result<seq<Consultation>>)
      reads this
    {
      if !requested then
        && consultations == cs0 && portalSettingName == name0 && isLoggedIn == in0
        && portalError == error0 && stored == stored0 && loggingIn == loggingIn0
      else if !NonBlank(dfe) || !NonBlank(schoolCode) then
        && consultations == cs0 && portalSettingName == name0 && !isLoggedIn
        && portalError == MissingCredentials && stored == stored0 && !loggingIn
      else if r.Ok? then
        && consultations == r.value && portalSettingName == FirstSettingName(r.value)
        && isLoggedIn && portalError == "" && stored == Saved(Trim(dfe), Trim(schoolCode))
        && !loggingIn
      else
        && consultations == cs0 && portalSettingName == name0 && !isLoggedIn
        && portalError == r.message && stored == Absent && !loggingIn
    }

    /** The token branch of the load effect; `fetched` is what the fetch
        without credentials returns. */
    method LoadToken(fetched: Result<seq<Consultation>>)
      modifies this`loading, this`consultations, this`portalSettingName, this`isLoggedIn,
               this`portalError, this`currentView, this`selectedId
      ensures !loading
      ensures TokenLoaded(old(consultations), old(portalSettingName), old(currentView),
                          old(selectedId), fetched)
    {
      loading := true;
      var r := fetched;
      if r.Ok? {
        var single := SelectForToken(r.value, Trim(AsString(IdConsultParam(query))));
        consultations := single;
        portalSettingName := FirstSettingName(single);
        isLoggedIn := true;
        portalError := "";
        currentView := Consultations;
        selectedId := FirstId(single);
      } else {
        portalError := r.message;
        isLoggedIn := false;
      }
      loading := false;
    }

    /** The portal-login branch of the load effect; `fetched` is what the
        fetch returns for the trimmed credentials. */
    method LoadPortal(fetched: Result<seq<Consultation>>)
      modifies this`loading, this`consultations, this`portalSettingName, this`isLoggedIn,
               this`portalError, this`stored, this`loggingIn
      ensures !loading
      ensures PortalLoaded(logonRequested, old(consultations), old(portalSettingName), old(isLoggedIn),
                           old(portalError), old(stored), old(loggingIn), fetched)
    {
      if !logonRequested {
        loading := false;
        return;
      }
      var d, c := Trim(dfe), Trim(schoolCode);
      if d == "" || c == "" {
        portalError := MissingCredentials;
        isLoggedIn := false;
        loading := false;
        loggingIn := false;
        return;
      }
      loading := true;
      var r := fetched;
      if r.Ok? {
        consultations := r.value;
        portalSettingName := FirstSettingName(r.value);
        isLoggedIn := true;
        portalError := "";
        stored := Saved(d, c);
      } else {
        portalError := r.message;
        isLoggedIn := false;
        stored := Absent;
      }
      loading := false;
      loggingIn := false;
    }

    /** Typing in the DfE-number input. */
    method EditDfe(v: string)
      modifies this`dfe
      ensures dfe == v
    {
      dfe := v;
    }

    /** Typing in the login-code input. */
    method EditSchoolCode(v: string)
      modifies this`schoolCode
      ensures schoolCode == v
    {
      schoolCode := v;
    }

    /** `handlePortalLogin`: with both inputs non-blank, they are trimmed in
        place and a login is requested; otherwise the error is shown. */
    method HandlePortalLogin()
      modifies this`portalError, this`dfe, this`schoolCode, this`loggingIn, this`logonRequested
      ensures NonBlank(old(dfe)) && NonBlank(old(schoolCode)) ==>
        && portalError == "" && dfe == Trim(old(dfe)) && schoolCode == Trim(old(schoolCode))
        && loggingIn && logonRequested
      ensures !(NonBlank(old(dfe)) && NonBlank(old(schoolCode))) ==>
        && portalError == MissingCredentials && dfe == old(dfe) && schoolCode == old(schoolCode)
        && loggingIn == old(loggingIn) && logonRequested == old(logonRequested)
      ensures old(CanAttemptLogin()) ==> logonRequested && !CanAttemptLogin()
    {
      portalError := "";
      var d, c := Trim(dfe), Trim(schoolCode);
      if d == "" || c == "" {
        portalError := MissingCredentials;
        return;
      }
      dfe, schoolCode := d, c;
      loggingIn := true;
      logonRequested := true;
    }

    /** `handleLogout`: the saved login and the credentials are cleared and
        the page returns home; the fetched list itself is kept. */
    method HandleLogout()
      modifies this`stored, this`isLoggedIn, this`logonRequested, this`dfe, this`schoolCode,
               this`selectedId, this`portalSettingName, this`currentView
      ensures stored == Absent && !isLoggedIn && !logonRequested && dfe == "" && schoolCode == ""
      ensures selectedId == None && portalSettingName == "" && currentView == Home
    {
      stored := Absent;
      isLoggedIn, logonRequested := false, false;
      dfe, schoolCode := "", "";
      selectedId := None;
      portalSettingName := "";
      currentView := Home;
    }

    /** One input of the inline consultation-response form. */
    method SetDraftField(f: Field, v: string)
      modifies this`draft
      ensures draft == old(draft).With(f, v)
    {
      draft := draft.With(f, v);
    }

    /** `resetConsultationForm` (also the "Clear form" button). */
    method ResetConsultationForm()
      modifies this`draft, this`submitMessage
      ensures draft == Initial && submitMessage == ""
    {
      draft := Initial;
      submitMessage := "";
    }

    /** A consultation card's click. */
    method SelectConsultation(id: string)
      modifies this`selectedId
      ensures selectedId == Some(id)
    {
      selectedId := Some(id);
    }

    /** "Back to list". */
    method BackToList()
      modifies this`selectedId, this`submitMessage
      ensures selectedId == None && submitMessage == ""
    {
      selectedId := None;
      submitMessage := "";
    }

    /** A sidebar item's click. */
    method Navigate(v: View)
      modifies this`currentView, this`selectedId, this`submitMessage
      ensures currentView == v && selectedId == None && submitMessage == ""
    {
      currentView := v;
      selectedId := None;
      submitMessage := "";
    }

    /** One text input of the inline annual-review form. */
    method SetArField(f: ArField, v: string)
      modifies this`arData
      ensures arData == WithField(old(arData), f, v)
    {
      arData := WithField(arData, f, v);
    }

    /** The inline dropzone's onChange. */
    method SetArAttachments(files: seq<File>)
      modifies this`arData
      ensures arData == old(arData).(attachments := files)
    {
      arData := arData.(attachments := files);
    }

    /** `handleConsultationSubmit`, with `reply` the flow's answer: a valid
        draft for a selected consultation is posted with the dashboard's
        snapshot; on success that consultation leaves the list, the
        selection is dropped and the form is reset. */
    method HandleConsultationSubmit(flowUrl: string, reply: Reply) returns (posted: Option<ResponsePayload>)
      modifies this`consultations, this`selectedId, this`draft, this`submitMessage
      ensures posted.Some? <==> VisibleValid(old(selectedId), old(draft))
      ensures posted.None? ==> unchanged(this)
      ensures posted.Some? ==> Posted(old(consultations), old(selectedId), old(draft), posted.value,
                                      PostToFlow(flowUrl, reply))
    {
      posted := None;
      if !VisibleValid(selectedId, draft) {
        return;
      }
      var p := PostConsultation(flowUrl, reply);
      posted := Some(p);
    }

    /** The state after a valid draft was posted as `p`, given the state
        before and the flow's answer. */
    ghost predicate Posted(cs0: seq<Consultation>, sel0: Option<string>, draft0: Draft,
                           p: ResponsePayload, ack: Result<Ack>)
      reads this
      requires sel0.Some?
    {
      && p == DashboardPayload(cs0, sel0, draft0)
      && (ack.Ok? ==>
            && consultations == RemoveById(cs0, sel0.value)
            && selectedId == None && draft == Initial && submitMessage == "")
      && (ack.Err? ==>
            && consultations == cs0 && selectedId == sel0 && draft == draft0
            && submitMessage == ack.message)
    }

    /** The posting half of `handleConsultationSubmit`. */
    method PostConsultation(flowUrl: string, reply: Reply) returns (p: ResponsePayload)
      requires selectedId.Some?
      modifies this`consultations, this`selectedId, this`draft, this`submitMessage
      ensures Posted(old(consultations), old(selectedId), old(draft), p, PostToFlow(flowUrl, reply))
    {
      submitMessage := "";
      p := DashboardPayload(consultations, selectedId, draft);
      var ack := PostToFlow(flowUrl, reply);
      if ack.Ok? {
        consultations := RemoveById(consultations, selectedId.value);
        selectedId := None;
        draft := Initial;
        submitMessage := "";
      } else {
        submitMessage := ack.message;
      }
    }

    /** `handleARSubmit`, with `read` for the file reader and `reply` for the
        flow's answer: on success the form is emptied and the page returns
        home. */
    method HandleARSubmit(flowUrl: string, read: File -> Option<string>, reply: Reply)
      returns (posted: Option<ArPayload>)
      modifies this`arData, this`currentView, this`submitMessage
      ensures posted == SubmittedPayload(old(arData), read)
      ensures !ArValid(old(arData)) ==> unchanged(this)
      ensures posted.Some? && PostToFlow(flowUrl, reply).Ok? ==>
        arData == EmptyArDraft && currentView == Home && submitMessage == ""
      ensures ArValid(old(arData)) && !(posted.Some? && PostToFlow(flowUrl, reply).Ok?) ==>
        && arData == old(arData) && currentView == old(currentView)
        && submitMessage == (if posted.None? then ReadFailureMessage else PostToFlow(flowUrl, reply).message)
    {
      posted := SubmittedPayload(arData, read);
      if !ArValid(arData) {
        return;
      }
      submitMessage := "";
      match posted
      case None =>
        submitMessage := ReadFailureMessage;
      case Some(_) =>
        match PostToFlow(flowUrl, reply)
        case Ok(_) =>
          arData := EmptyArDraft;
          currentView := Home;
        case Err(m) =>
          submitMessage := m;
    }

    /** The header's counts: total, overdue and due within seven days. */
    function Stats(cal: Calendar): (r: (nat, nat, nat))
      reads this
      ensures r.0 == |consultations|
      ensures r.1 + r.2 <= r.0
      ensures r.1 == CountBadges(consultations, cal, {Overdue})
      ensures r.2 == CountBadges(consultations, cal, {DueToday, DueSoon})
    {
      StatsPartition(consultations, cal);
      CountsAgreeWithBadges(consultations, cal);
      (|consultations|, OverdueCount(consultations, cal), DueSoonCount(consultations, cal))
    }
  }

  /** A successful submission in the list mode removes exactly the answered
      consultation: the list keeps every other one in order and shrinks by one. */
  lemma SubmittedConsultationLeaves(items: seq<Object>, k: nat)
    requires k < |items|
    ensures var cs := MapList(items);
      && RemoveById(cs, cs[k].id) == cs[..k] + cs[k + 1..]
      && |RemoveById(cs, cs[k].id)| == |cs| - 1
  {
    ListModeIdsDistinct(items);
    RemoveByIdRemovesOne(MapList(items), k);
  }

  /** In token mode a successful load shows exactly the one fetched
      consultation, selected. */
  lemma TokenLoadShowsFetched(env: Env, q: Query, encode: string -> string, fetch: string -> Reply)
    requires Truthy(QueryGet(q, "token"))
    requires FetchConsultations(env, "", "", q, encode, fetch).Ok?
    ensures var data := FetchConsultations(env, "", "", q, encode, fetch).value;
      var single := SelectForToken(data, Trim(AsString(IdConsultParam(q))));
      && single == data && |single| == 1
      && FirstId(single) == Some(data[0].id)
  {
    TokenModeSingle(env, q, encode, fetch);
    var data := FetchConsultations(env, "", "", q, encode, fetch).value;
    SelectFromSingle(data, Trim(AsString(IdConsultParam(q))));
  }
}
