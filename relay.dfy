/**
 * The transcribeAudioHttp cloud function: it accepts only POST, requires an
 * audioStoragePath in the body, calls the transcription flow with the path
 * and the language hint, and turns the flow's result or error into one
 * status code and one JSON body. The flow itself is a parameter: a function
 * from its input to what it returned or threw.
 */
module Relay {
  import opened Common

  /** One transcription row, as the flow's output schema describes it. */
  datatype Row = Row(timestamp: string, speaker: string, text: string)

  /** The fields the handler destructures from the parsed body; absent ones are None. */
  datatype RequestBody = RequestBody(audioStoragePath: Option<string>, languageHint: Option<string>)

  datatype HttpRequest = HttpRequest(httpMethod: string, body: RequestBody)

  /** What the flow is called with. */
  datatype FlowInput = FlowInput(audioStoragePath: string, languageHint: Option<string>)

  /**
   * The value the awaited flow resolves to: null or undefined, the bare row
   * array its output schema declares, or an object with optional
   * transcriptionRows and detectedLanguages, the shape the handler reads.
   */
  datatype FlowValue =
    | NoValue
    | BareRows(rows: seq<Row>)
    | Structured(transcriptionRows: Option<seq<Row>>, detectedLanguages: seq<string>)

  /**
   * A thrown error: its message, its details, and the JSON text of its cause
   * when it has one.
   */
  datatype FlowError = FlowError(message: string, details: Option<string>, causeJson: Option<string>)

  datatype FlowOutcome = Returned(value: FlowValue) | Threw(error: FlowError)

  datatype ResponseBody =
    | PlainText(text: string)
    | ErrorJson(error: string, message: Option<string>, details: Option<string>)
    | ResultJson(result: FlowValue)

  datatype HttpResponse = HttpResponse(status: nat, body: ResponseBody)

  /** The flow's own error when the model gives no output. */
  const NoOutputError: FlowError := FlowError("Transcription failed: No output from model.", None, None)

  const EmptyResult: FlowValue := Structured(Some([]), [])

  /** Any value but null or undefined is truthy. */
  predicate Truthy(v: FlowValue) {
    !v.NoValue?
  }

  /**
   * The "no segments" test: no value, no transcriptionRows property (a bare
   * array has none) or an empty one.
   */
  predicate NoSegments(v: FlowValue) {
    || v.NoValue?
    || v.BareRows?
    || v.transcriptionRows.None?
    || |v.transcriptionRows.value| == 0
  }

  /** The body of the catch block. */
  function ErrorResponse(e: FlowError): (r: HttpResponse)
    ensures r.status == 500 && r.body.ErrorJson? && r.body.error == "Failed to process audio transcription."
    ensures r.body.message == Some(if e.message != "" then e.message else "An unknown error occurred during transcription.")
    ensures TruthyString(e.details) ==> r.body.details == e.details
    ensures !TruthyString(e.details) ==> r.body.details == e.causeJson
  {
    var message := if e.message != "" then e.message else "An unknown error occurred during transcription.";
    var details := if TruthyString(e.details) then e.details else if e.causeJson.Some? then e.causeJson else None;
    HttpResponse(500, ErrorJson("Failed to process audio transcription.", Some(message), details))
  }

  /** The response after the flow resolved to v: both 200 branches send v itself, or the empty result for no value. */
  function ResultResponse(v: FlowValue): (r: HttpResponse)
    ensures r.status == 200 && r.body.ResultJson?
    ensures Truthy(v) ==> r.body.result == v
    ensures !Truthy(v) ==> r.body.result == EmptyResult
  {
    if NoSegments(v) then
      HttpResponse(200, ResultJson(if Truthy(v) then v else EmptyResult))
    else
      HttpResponse(200, ResultJson(v))
  }

  /** transcribeAudioHttp, from the request and the flow to the one response it sends. */
  function TranscribeAudioHttp(req: HttpRequest, flow: FlowInput -> FlowOutcome): (r: HttpResponse)
    ensures req.httpMethod != "POST" ==> r == HttpResponse(405, PlainText("Method Not Allowed"))
    ensures req.httpMethod == "POST" && !TruthyString(req.body.audioStoragePath) ==>
              r == HttpResponse(400, ErrorJson("Missing audioStoragePath in request body.", None, None))
    ensures r.status == 200 || r.status == 400 || r.status == 405 || r.status == 500
    ensures r.status == 200 <==>
              && req.httpMethod == "POST" && TruthyString(req.body.audioStoragePath)
              && flow(FlowInput(req.body.audioStoragePath.value, req.body.languageHint)).Returned?
    ensures req.httpMethod == "POST" && TruthyString(req.body.audioStoragePath) &&
            flow(FlowInput(req.body.audioStoragePath.value, req.body.languageHint)).Threw? ==>
              r == ErrorResponse(flow(FlowInput(req.body.audioStoragePath.value, req.body.languageHint)).error)
    ensures req.httpMethod == "POST" && TruthyString(req.body.audioStoragePath) &&
            flow(FlowInput(req.body.audioStoragePath.value, req.body.languageHint)).Returned? ==>
              r == ResultResponse(flow(FlowInput(req.body.audioStoragePath.value, req.body.languageHint)).value)
  {
    if req.httpMethod != "POST" then
      HttpResponse(405, PlainText("Method Not Allowed"))
    else if !TruthyString(req.body.audioStoragePath) then
      HttpResponse(400, ErrorJson("Missing audioStoragePath in request body.", None, None))
    else
      match flow(FlowInput(req.body.audioStoragePath.value, req.body.languageHint))
      case Returned(v) => ResultResponse(v)
      case Threw(e) => ErrorResponse(e)
  }

  // ---------------------------------------------------------------------------
  // Properties
  // ---------------------------------------------------------------------------

  /** A rejected request never reaches the flow: any two flows give the same 405 or 400. */
  lemma RejectionIgnoresFlow(req: HttpRequest, f: FlowInput -> FlowOutcome, g: FlowInput -> FlowOutcome)
    requires req.httpMethod != "POST" || !TruthyString(req.body.audioStoragePath)
    ensures TranscribeAudioHttp(req, f) == TranscribeAudioHttp(req, g)
    ensures TranscribeAudioHttp(req, f).status in {400, 405}
  {
  }

  /** The flow is consulted only on the request's own path and hint. */
  lemma FlowSeesOnlyPathAndHint(req: HttpRequest, f: FlowInput -> FlowOutcome, g: FlowInput -> FlowOutcome)
    requires req.httpMethod == "POST" && TruthyString(req.body.audioStoragePath)
    requires f(FlowInput(req.body.audioStoragePath.value, req.body.languageHint))
             == g(FlowInput(req.body.audioStoragePath.value, req.body.languageHint))
    ensures TranscribeAudioHttp(req, f) == TranscribeAudioHttp(req, g)
  {
  }

  /** Whatever truthy value the flow resolves to is sent unchanged with 200, whichever branch sends it. */
  lemma ResultPassesThrough(req: HttpRequest, flow: FlowInput -> FlowOutcome, v: FlowValue)
    requires req.httpMethod == "POST" && TruthyString(req.body.audioStoragePath)
    requires flow(FlowInput(req.body.audioStoragePath.value, req.body.languageHint)) == Returned(v)
    ensures Truthy(v) ==> TranscribeAudioHttp(req, flow) == HttpResponse(200, ResultJson(v))
    ensures !Truthy(v) ==> TranscribeAudioHttp(req, flow) == HttpResponse(200, ResultJson(EmptyResult))
  {
  }

  /**
   * The bare row array the flow's schema declares is always taken for "no
   * segments", since it has no transcriptionRows; it is still sent as is.
   */
  lemma BareRowsTakeTheEmptyBranch(rows: seq<Row>)
    ensures NoSegments(BareRows(rows))
    ensures ResultResponse(BareRows(rows)) == HttpResponse(200, ResultJson(BareRows(rows)))
  {
  }

  /** The flow's null-output error becomes a 500 carrying its message and no details. */
  lemma NoOutputBecomes500(req: HttpRequest, flow: FlowInput -> FlowOutcome)
    requires req.httpMethod == "POST" && TruthyString(req.body.audioStoragePath)
    requires flow(FlowInput(req.body.audioStoragePath.value, req.body.languageHint)) == Threw(NoOutputError)
    ensures TranscribeAudioHttp(req, flow)
            == HttpResponse(500, ErrorJson("Failed to process audio transcription.",
                                           Some("Transcription failed: No output from model."), None))
  {
  }

  /** details prefers the error's own details, then its cause; an error with neither sends none. */
  lemma DetailsPreference(e: FlowError)
    ensures ErrorResponse(e).body.details.Some? <==> TruthyString(e.details) || e.causeJson.Some?
    ensures !e.details.Some? && e.causeJson.None? ==> ErrorResponse(e).body.details.None?
  {
  }
}
