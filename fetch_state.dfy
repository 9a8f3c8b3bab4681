/** The request state of `PatientViewer` and `fetchPatientData`, which moves it
    from idle to loading to resolved through `setLoading`, `setError` and
    `setPatientData`. The network exchange is an input: what `fetch` and
    `response.json()` produced for the requested URL. */
module FetchState {
  import opened Wrappers
  import opened JsSemantics
  import opened FhirShape

  /** A thrown value as the `catch` sees it: an `Error` with its message, or
      anything else. */
  datatype Thrown = ErrorObject(message: string) | OtherThrown

  /** What `response.json()` gave: the parsed body (`None` for a JSON `null`)
      or a thrown parse error. */
  datatype Body = Parsed(json: Option<Bundle>) | Unparsable(thrown: Thrown)

  /** What the network exchange produced for one request. */
  datatype FetchOutcome =
    | Response(status: nat, body: Body)
    | NetworkFailure(thrown: Thrown)

  const FallbackMessage: string := "Failed to fetch patient data"
  const HttpErrorPrefix: string := "HTTP error! Status: "

  /** `response.ok`: the status is in the range 200-299. */
  predicate IsOk(status: nat) {
    200 <= status <= 299
  }

  /** The URL requested for a patient: `apiUrl + "/" + patientId + "/summary"`. */
  function SummaryUrl(apiUrl: string, patientId: string): (url: string)
    ensures apiUrl <= url && |url| == |apiUrl| + |patientId| + 9
    ensures url[|apiUrl|] == '/'
    ensures url[|apiUrl| + 1..|apiUrl| + 1 + |patientId|] == patientId
    ensures url[|apiUrl| + 1 + |patientId|..] == "/summary"
  {
    apiUrl + "/" + patientId + "/summary"
  }

  /** `err instanceof Error ? err.message : "Failed to fetch patient data"` */
  function CaughtMessage(t: Thrown): (m: string)
    ensures t.ErrorObject? ==> m == t.message
    ensures t.OtherThrown? ==> m == FallbackMessage
  {
    match t
    case ErrorObject(msg) => msg
    case OtherThrown => FallbackMessage
  }

  /** The message thrown for a response that is not ok. */
  function HttpErrorMessage(status: nat): (m: string)
    ensures HttpErrorPrefix <= m && |m| > |HttpErrorPrefix|
    ensures AllDigits(m[|HttpErrorPrefix|..]) && DecimalValue(m[|HttpErrorPrefix|..]) == status
    ensures |m| > |HttpErrorPrefix| + 1 ==> m[|HttpErrorPrefix|] != '0'
  {
    var m := HttpErrorPrefix + DecimalString(status);
    assert m[|HttpErrorPrefix|..] == DecimalString(status);
    DecimalRoundTrip(status);
    m
  }

  /** The error a completed request leaves: a network or parse failure gives
      its caught message, a status outside 200-299 gives the HTTP error. */
  function ErrorAfter(o: FetchOutcome): (e: Option<string>)
    ensures e.None? <==> o.Response? && IsOk(o.status) && o.body.Parsed?
    ensures o.Response? && !IsOk(o.status) ==> e == Some(HttpErrorMessage(o.status))
    ensures o.NetworkFailure? ==> e == Some(CaughtMessage(o.thrown))
    ensures o.Response? && IsOk(o.status) && o.body.Unparsable? ==> e == Some(CaughtMessage(o.body.thrown))
  {
    match o
    case NetworkFailure(t) => Some(CaughtMessage(t))
    case Response(status, body) =>
      if !IsOk(status) then Some(HttpErrorMessage(status))
      else
        match body
        case Unparsable(t) => Some(CaughtMessage(t))
        case Parsed(_) => None
  }

  /** The data a completed request leaves: the parsed body of an ok response. */
  function DataAfter(o: FetchOutcome): (d: Option<Bundle>)
    ensures d.Some? <==> o.Response? && IsOk(o.status) && o.body.Parsed? && o.body.json.Some?
    ensures d.Some? ==> d == o.body.json
  {
    if o.Response? && IsOk(o.status) && o.body.Parsed? then o.body.json else None
  }

  /** Error and data are never both set after a request completes. */
  lemma ErrorAndDataExclusive(o: FetchOutcome)
    ensures !(ErrorAfter(o).Some? && DataAfter(o).Some?)
  {
  }

  /** Exactly one of error and data is set after a request completes, unless an
      ok response's body is the JSON value `null`; that one leaves neither. */
  lemma ExactlyOneUnlessNullBody(o: FetchOutcome)
    ensures ErrorAfter(o).Some? != DataAfter(o).Some? <==>
              !(o.Response? && IsOk(o.status) && o.body == Parsed(None))
  {
  }

  /** A 404 for any request leaves the message "HTTP error! Status: 404" and no data. */
  lemma NotFoundMessage(body: Body)
    ensures ErrorAfter(Response(404, body)) == Some("HTTP error! Status: 404")
    ensures DataAfter(Response(404, body)).None?
  {
    assert DigitChar(4) == '4' && DigitChar(0) == '0';
    assert DecimalString(4) == "4";
    assert DecimalString(40) == "40";
    assert DecimalString(404) == "404";
    assert HttpErrorMessage(404) == HttpErrorPrefix + "404";
    assert HttpErrorPrefix + "404" == "HTTP error! Status: 404";
    assert !IsOk(404);
  }

  class PatientViewer {
    var patientId: string
    var loading: bool
    var error: Option<string>
    var patientData: Option<Bundle>

    /** A request in flight has cleared error and data; error and data are never
        both set. */
    ghost predicate Valid()
      reads this
    {
      (loading ==> error.None? && patientData.None?) &&
      !(error.Some? && patientData.Some?)
    }

    /** The initial `useState` values. */
    constructor ()
      ensures Valid()
      ensures patientId == "" && !loading && error.None? && patientData.None?
    {
      patientId := "";
      loading := false;
      error := None;
      patientData := None;
    }

    /** The input field's `onChange`. */
    method SetPatientId(id: string)
      modifies this`patientId
      ensures patientId == id
    {
      patientId := id;
    }

    /** The part of `fetchPatientData` before the `await`: an empty id changes
        nothing and requests nothing; otherwise loading starts, error and data
        are cleared, and the summary URL is requested. */
    method StartFetch(apiUrl: string) returns (request: Option<string>)
      requires Valid()
      modifies this`loading, this`error, this`patientData
      ensures Valid()
      ensures old(patientId) == "" ==>
                request.None? && loading == old(loading) && error == old(error) && patientData == old(patientData)
      ensures old(patientId) != "" ==>
                request == Some(SummaryUrl(apiUrl, patientId)) && loading && error.None? && patientData.None?
    {
      if patientId == "" {
        return None;
      }
      loading := true;
      error := None;
      patientData := None;
      request := Some(SummaryUrl(apiUrl, patientId));
    }

    /** The part of `fetchPatientData` after the `await`: the `try` body, the
        `catch` and the `finally`. */
    method FinishFetch(outcome: FetchOutcome)
      requires Valid() && loading
      modifies this`loading, this`error, this`patientData
      ensures Valid() && !loading
      ensures error == ErrorAfter(outcome) && patientData == DataAfter(outcome)
    {
      match outcome {
        case NetworkFailure(t) =>
          error := Some(CaughtMessage(t));
        case Response(status, body) =>
          if !IsOk(status) {
            error := Some(HttpErrorMessage(status));
          } else {
            match body {
              case Unparsable(t) =>
                error := Some(CaughtMessage(t));
              case Parsed(json) =>
                patientData := json;
            }
          }
      }
      loading := false;
    }

    /** The whole of `fetchPatientData`, with `respond` standing for the network:
        an empty id leaves the state alone; otherwise the request settles to the
        error or the data its outcome determines. */
    method FetchPatientData(apiUrl: string, respond: string -> FetchOutcome) returns (request: Option<string>)
      requires Valid()
      modifies this`loading, this`error, this`patientData
      ensures Valid()
      ensures old(patientId) == "" ==>
                request.None? && loading == old(loading) && error == old(error) && patientData == old(patientData)
      ensures old(patientId) != "" ==>
                request == Some(SummaryUrl(apiUrl, patientId)) && !loading &&
                error == ErrorAfter(respond(request.value)) && patientData == DataAfter(respond(request.value))
    {
      request := StartFetch(apiUrl);
      if request.Some? {
        FinishFetch(respond(request.value));
      }
    }
  }
}
