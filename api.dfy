/** The remote client of `src/services/api.js` (copied verbatim into
    `src/Dashboard.jsx`): the classification of a flow post's reply and
    `fetchConsultationsForSchool`, with the HTTP transport, the environment
    URLs and `encodeURIComponent` passed in as parameters. */
module Api {
  import opened Results
  import opened Js

  /** The three endpoint URLs read from the environment; an unset variable is "". */
  datatype Env = Env(flowUrl: string, prefillUrl: string, listBySchoolUrl: string)

  /** What `resp.json()` yields: a parse failure with the parser's message, an
      object, or an array of objects. */
  datatype Json = NotJson(syntaxError: string) | JsonObject(fields: Object) | JsonArray(items: seq<Object>)

  /** The reply to one `fetch`: the request itself failed, or a response with
      its status, whether it is ok, what `resp.text()` yields (None when
      reading the text fails), and what `resp.json()` yields. */
  datatype Reply =
    | NetworkFailure(message: string)
    | Response(status: nat, ok: bool, text: Option<string>, json: Json)

  /** What `postToFlow` resolves to: the decoded body, or `{ ok: true }` when
      the body of an ok response is not JSON. */
  datatype Ack = Decoded(body: Json) | ImplicitOk

  /** A consultation as the portal stores it: every field a string. */
  datatype Consultation = Consultation(
    id: string, impulseId: string, forename: string, surname: string,
    settingName: string, idConsult: string, phaseId: string, dueDate: string)

  /** The navigation query string: `qs.get(k)` for each key that is present. */
  type Query = map<string, string>

  const MissingFlowUrl := "Missing VITE_FLOW_URL"
  const MissingPrefillUrl := "Missing VITE_PREFILL_URL"
  const MissingListUrl := "Missing VITE_LIST_BY_SCHOOL_URL"
  const MissingCredentials := "Please enter both DfE number and login code."
  const PrefillFailed := "Prefill API failed"
  const ListFailed := "List-by-school API failed"
  const UnexpectedListResponse := "Unexpected response from login API."

  // ----- postToFlow -----

  /** `HTTP {status}: {text || "No response"}` */
  function HttpFailureMessage(status: nat, text: Option<string>): string {
    var body := if text.Some? then text.value else "";
    "HTTP " + NatToString(status) + ": " + (if body != "" then body else "No response")
  }

  /** What `postToFlow` does with the reply to its POST. */
  function PostToFlow(flowUrl: string, reply: Reply): (r: Result<Ack>)
    ensures flowUrl == "" ==> r == Err(MissingFlowUrl)
    ensures flowUrl != "" && reply.Response? && !reply.ok ==>
              r == Err(HttpFailureMessage(reply.status, reply.text))
    ensures r.Ok? <==> flowUrl != "" && reply.Response? && reply.ok
    ensures r.Ok? && reply.json.NotJson? ==> r.value == ImplicitOk
  {
    if flowUrl == "" then Err(MissingFlowUrl)
    else match reply
      case NetworkFailure(m) => Err(m)
      case Response(status, ok, text, json) =>
        if !ok then Err(HttpFailureMessage(status, text))
        else if json.NotJson? then Ok(ImplicitOk)
        else Ok(Decoded(json))
  }

  /** A non-ok reply's message names its status and falls back to
      "No response" when the body is empty or unreadable. */
  lemma HttpFailureMessageShape(status: nat, text: Option<string>)
    ensures var m := HttpFailureMessage(status, text);
      && m[..5] == "HTTP "
      && (text == None || text == Some("") ==> m == "HTTP " + NatToString(status) + ": No response")
      && (text.Some? && text.value != "" ==> m == "HTTP " + NatToString(status) + ": " + text.value)
  {
  }

  // ----- fetchConsultationsForSchool -----

  /** `qs.get(key)`: the string value, or `null` when the key is absent. */
  function QueryGet(q: Query, key: string): Value {
    if key in q then Str(q[key]) else Null
  }

  /** The requested consultation id: `idConsult || consultId || ConsultID || idConsultation`. */
  function IdConsultParam(q: Query): (r: Value)
    ensures Truthy(r) <==>
      || Truthy(QueryGet(q, "idConsult")) || Truthy(QueryGet(q, "consultId"))
      || Truthy(QueryGet(q, "ConsultID")) || Truthy(QueryGet(q, "idConsultation"))
  {
    Or(Or(Or(QueryGet(q, "idConsult"), QueryGet(q, "consultId")),
          QueryGet(q, "ConsultID")), QueryGet(q, "idConsultation"))
  }

  /** The query carries a non-empty value for `key`. */
  predicate Given(q: Query, key: string) {
    key in q && q[key] != ""
  }

  /** The alias that wins is the first one given with a non-empty value. */
  lemma IdConsultParamPrecedence(q: Query)
    ensures Given(q, "idConsult") ==> IdConsultParam(q) == Str(q["idConsult"])
    ensures !Given(q, "idConsult") && Given(q, "consultId") ==> IdConsultParam(q) == Str(q["consultId"])
    ensures !Given(q, "idConsult") && !Given(q, "consultId") && Given(q, "ConsultID") ==>
              IdConsultParam(q) == Str(q["ConsultID"])
    ensures !Given(q, "idConsult") && !Given(q, "consultId") && !Given(q, "ConsultID") ==>
              IdConsultParam(q) == QueryGet(q, "idConsultation")
  {
  }

  /** The separator before the first added query parameter. */
  function Separator(baseUrl: string): (r: string)
    ensures r == "&" <==> '?' in baseUrl
    ensures r == "?" <==> '?' !in baseUrl
  {
    if '?' in baseUrl then "&" else "?"
  }

  /** The prefill request URL for a token, with the requested id appended when one was given. */
  function PrefillUrl(base: string, token: string, idParam: Value, encode: string -> string): string {
    base + Separator(base) + "token=" + encode(token)
    + (if Truthy(idParam) then "&idConsult=" + encode(AsString(idParam)) else "")
  }

  /** The login key `{dfe}/{code}`. */
  function LoginKey(dfe: string, code: string): (k: string)
    ensures |k| == |dfe| + 1 + |code| && k[|dfe|] == '/'
    ensures k[..|dfe|] == dfe && k[|dfe| + 1..] == code
  {
    dfe + "/" + code
  }

  function ListUrl(base: string, key: string, encode: string -> string): string {
    base + Separator(base) + "key=" + encode(key)
  }

  /** The single consultation built from a prefill reply. */
  function FromPrefill(data: Object, idParam: Value, token: Value): Consultation {
    Consultation(
      id := AsString(Coalesce(Coalesce(Coalesce(Get(data, "idConsult"), Get(data, "idConsultation")), idParam), token)),
      impulseId := AsString(Coalesce(Get(data, "impulseId"), Str(""))),
      forename := AsString(Coalesce(Get(data, "forename"), Str(""))),
      surname := AsString(Coalesce(Get(data, "surname"), Str(""))),
      settingName := AsString(Coalesce(Get(data, "settingName"), Str(""))),
      idConsult := AsString(Coalesce(Coalesce(Coalesce(Get(data, "idConsult"), Get(data, "idConsultation")), idParam), Str(""))),
      phaseId := AsString(Coalesce(Get(data, "phaseId"), Str(""))),
      dueDate := AsString(Coalesce(Get(data, "dueDate"), Str(""))))
  }

  /** The consultation built from the `i`-th element (0-based) of a list reply. */
  function FromListItem(c: Object, i: nat): Consultation {
    Consultation(
      id := "c" + NatToString(i + 1),
      impulseId := AsString(Coalesce(Get(c, "impulseId"), Str(""))),
      forename := AsString(Coalesce(Get(c, "forename"), Str(""))),
      surname := AsString(Coalesce(Get(c, "surname"), Str(""))),
      settingName := AsString(Coalesce(Get(c, "settingName"), Str(""))),
      idConsult := AsString(Coalesce(Coalesce(Get(c, "idConsult"), Get(c, "idConsultation")), Str(""))),
      phaseId := AsString(Coalesce(Get(c, "phaseId"), Str(""))),
      dueDate := AsString(Coalesce(Get(c, "dueDate"), Str(""))))
  }

  /** `list.map((c, i) => ...)` */
  function MapList(items: seq<Object>): (r: seq<Consultation>)
    ensures |r| == |items|
    ensures forall i :: 0 <= i < |items| ==> r[i] == FromListItem(items[i], i)
  {
    seq(|items|, i requires 0 <= i < |items| => FromListItem(items[i], i))
  }

  /** What the list endpoint's decoded body turns into: the mapped array, or
      the error an envelope carries. */
  function ReadList(json: Json): Result<seq<Consultation>> {
    match json
    case NotJson(e) => Err(e)
    case JsonArray(items) => Ok(MapList(items))
    case JsonObject(o) =>
      Err(AsString(Or(Or(Get(o, "error"), Get(o, "message")), Str(UnexpectedListResponse))))
  }

  /** `fetchConsultationsForSchool(dfe, code, location)`: token mode when the
      query has a non-empty `token`, portal-login mode otherwise. */
  function FetchConsultations(env: Env, dfe: string, code: string, q: Query,
                              encode: string -> string, fetch: string -> Reply): Result<seq<Consultation>>
  {
    var token := QueryGet(q, "token");
    var idParam := IdConsultParam(q);
    if Truthy(token) then
      if env.prefillUrl == "" then Err(MissingPrefillUrl)
      else match fetch(PrefillUrl(env.prefillUrl, token.s, idParam, encode))
        case NetworkFailure(m) => Err(m)
        case Response(_, ok, _, json) =>
          if !ok then Err(PrefillFailed)
          else match json
            case NotJson(e) => Err(e)
            case JsonObject(data) => Ok([FromPrefill(data, idParam, token)])
            // an array has none of the named properties
            case JsonArray(_) => Ok([FromPrefill(map[], idParam, token)])
    else if dfe == "" || code == "" then Err(MissingCredentials)
    else if env.listBySchoolUrl == "" then Err(MissingListUrl)
    else match fetch(ListUrl(env.listBySchoolUrl, LoginKey(dfe, code), encode))
      case NetworkFailure(m) => Err(m)
      case Response(_, ok, _, json) =>
        if !ok then Err(ListFailed) else ReadList(json)
  }

  // ----- Properties of the list mode -----

  /** The synthesised ids `c1, c2, ...` are pairwise distinct. */
  lemma ListIdsDistinct(items: seq<Object>, i: nat, j: nat)
    requires i < |items| && j < |items| && i != j
    ensures MapList(items)[i].id != MapList(items)[j].id
  {
    var a, b := MapList(items)[i].id, MapList(items)[j].id;
    if a == b {
      assert a[1..] == NatToString(i + 1);
      assert b[1..] == NatToString(j + 1);
      NatToStringInjective(i + 1, j + 1);
    }
  }

  /** Each field of a mapped element is `asString` of the source field, "" when
      it is absent, and `idConsult` falls back to `idConsultation`. */
  lemma ListFieldsNormalised(c: Object, i: nat)
    ensures var r := FromListItem(c, i);
      && r.impulseId == AsString(Get(c, "impulseId"))
      && r.forename == AsString(Get(c, "forename"))
      && r.surname == AsString(Get(c, "surname"))
      && r.settingName == AsString(Get(c, "settingName"))
      && r.phaseId == AsString(Get(c, "phaseId"))
      && r.dueDate == AsString(Get(c, "dueDate"))
      && r.idConsult == (if !IsNullish(Get(c, "idConsult")) then AsString(Get(c, "idConsult"))
                         else AsString(Get(c, "idConsultation")))
      && ("impulseId" !in c ==> r.impulseId == "")
  {
  }

  /** Portal-login mode with an empty DfE number or code fails before any
      request: the result is the same whatever the transport would answer. */
  lemma MissingCredentialsBeforeRequest(env: Env, dfe: string, code: string, q: Query,
                                        encode: string -> string, fetch: string -> Reply)
    requires !Truthy(QueryGet(q, "token"))
    requires dfe == "" || code == ""
    ensures FetchConsultations(env, dfe, code, q, encode, fetch) == Err(MissingCredentials)
  {
  }

  /** In portal-login mode the list endpoint is asked for `key={dfe}/{code}`,
      and a successful array reply is mapped element by element. */
  lemma ListModeRequest(env: Env, dfe: string, code: string, q: Query,
                        encode: string -> string, fetch: string -> Reply)
    requires !Truthy(QueryGet(q, "token")) && dfe != "" && code != "" && env.listBySchoolUrl != ""
    ensures var reply := fetch(env.listBySchoolUrl + Separator(env.listBySchoolUrl) + "key=" + encode(dfe + "/" + code));
      && (reply.Response? && reply.ok && reply.json.JsonArray? ==>
           FetchConsultations(env, dfe, code, q, encode, fetch) == Ok(MapList(reply.json.items)))
      && (reply.Response? && !reply.ok ==> FetchConsultations(env, dfe, code, q, encode, fetch) == Err(ListFailed))
  {
  }

  /** A list reply that is not an array is an error carrying its `error`, else
      its `message`, else the fixed text. */
  lemma NonArrayListIsError(o: Object)
    ensures Truthy(Get(o, "error")) ==> ReadList(JsonObject(o)) == Err(AsString(Get(o, "error")))
    ensures !Truthy(Get(o, "error")) && Truthy(Get(o, "message")) ==>
              ReadList(JsonObject(o)) == Err(AsString(Get(o, "message")))
    ensures !Truthy(Get(o, "error")) && !Truthy(Get(o, "message")) ==>
              ReadList(JsonObject(o)) == Err(UnexpectedListResponse)
  {
  }

  // ----- Properties of the token mode -----

  /** Token mode yields exactly one consultation whose id is the first present
      of the reply's `idConsult`, its `idConsultation`, the requested id and
      the token. */
  lemma TokenModeSingle(env: Env, q: Query, encode: string -> string, fetch: string -> Reply)
    requires Truthy(QueryGet(q, "token"))
    ensures var r := FetchConsultations(env, "", "", q, encode, fetch);
      r.Ok? ==> |r.value| == 1
    ensures var r := FetchConsultations(env, "", "", q, encode, fetch);
      var reply := fetch(PrefillUrl(env.prefillUrl, q["token"], IdConsultParam(q), encode));
      r.Ok? && reply.json.JsonObject? ==>
        var data := reply.json.fields;
        r.value[0].id ==
          (if !IsNullish(Get(data, "idConsult")) then AsString(Get(data, "idConsult"))
           else if !IsNullish(Get(data, "idConsultation")) then AsString(Get(data, "idConsultation"))
           else if !IsNullish(IdConsultParam(q)) then AsString(IdConsultParam(q))
           else q["token"])
  {
  }

  /** The prefill URL puts the token first, after `?` or `&` as the base
      needs, and appends `&idConsult=` only for a non-empty requested id. */
  lemma PrefillUrlShape(base: string, token: string, idParam: Value, encode: string -> string)
    ensures var u := PrefillUrl(base, token, idParam, encode);
      var head := base + Separator(base) + "token=" + encode(token);
      && u[..|head|] == head
      && (!Truthy(idParam) ==> u == head)
      && (idParam.Str? && idParam.s != "" ==> u == head + "&idConsult=" + encode(idParam.s))
  {
  }
}
