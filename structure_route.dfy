/** `POST /api/structure`: two ordered validation gates in front of
    `structureText`, mapped to status 400, 200 or 500. */
module StructureRoute {
  import opened Js
  import opened Domain
  import opened Structuring
  import SessionSetup

  /** What `await request.json()` came to: the parsed body, or a throw. */
  datatype Request = Body(json: Json) | Unparsable(error: Thrown)

  const MissingInputMessage := "Transcription and session data are required"
  const IncompleteSessionMessage := "Session data must include name, description, and objective"
  const FailureMessage := "Failed to structure text"

  /** The first gate (route.ts:8): `!transcription || !sessionData`. */
  predicate MissingInput(body: Json)
  {
    !Truthy(Get(body, "transcription")) || !Truthy(Get(body, "sessionData"))
  }

  /** The second gate (route.ts:15-19): a falsy name, description or objective.
      Only falsiness is tested, so a whitespace-only string passes. */
  predicate IncompleteSession(sessionData: Json)
  {
    !Truthy(Get(sessionData, "name")) || !Truthy(Get(sessionData, "description")) || !Truthy(Get(sessionData, "objective"))
  }

  /** The handler. Destructuring `{ transcription, sessionData }` out of a JSON
      `null` throws, like an unparsable body, and lands in the catch clause.
      The chain's outcome is a parameter; `structureText` is reached only when
      both gates pass. */
  function Post(request: Request, chain: ChainOutcome): (r: JsonResponse)
    ensures r.status == 200 || r.status == 400 || r.status == 500
  {
    match request
    case Unparsable(_) => JsonResponse(500, ErrorBody(FailureMessage))
    case Body(body) =>
      if body.JNull? then JsonResponse(500, ErrorBody(FailureMessage))
      else if MissingInput(body) then JsonResponse(400, ErrorBody(MissingInputMessage))
      else
        var transcription := Get(body, "transcription").value;
        var sessionData := Get(body, "sessionData").value;
        if IncompleteSession(sessionData) then JsonResponse(400, ErrorBody(IncompleteSessionMessage))
        else JsonResponse(200, EncodeOutput(StructureText(transcription, sessionData, chain)))
  }

  /** Status 500 comes only from the catch clause, that is from a body that
      cannot be read or destructured; `structureText` never causes it. */
  lemma PostFailsOnlyOnUnreadableBody(request: Request, chain: ChainOutcome)
    ensures Post(request, chain).status == 500 <==> request.Unparsable? || request == Body(JNull)
    ensures Post(request, chain).status == 500 ==> Post(request, chain).body == ErrorBody(FailureMessage)
  {
  }

  /** The first gate: an empty or missing transcription, or missing session
      data, gives 400 with the first message. */
  lemma PostRejectsMissingInput(body: Json, chain: ChainOutcome)
    requires !body.JNull?
    ensures Post(Body(body), chain) == JsonResponse(400, ErrorBody(MissingInputMessage)) <==> MissingInput(body)
  {
    assert ErrorBody(IncompleteSessionMessage).fields["error"] != ErrorBody(MissingInputMessage).fields["error"];
  }

  /** The second gate runs only after the first passes: a falsy name,
      description or objective gives 400 with the second message. */
  lemma PostRejectsIncompleteSession(body: Json, chain: ChainOutcome)
    requires !body.JNull? && !MissingInput(body)
    ensures Post(Body(body), chain) == JsonResponse(400, ErrorBody(IncompleteSessionMessage))
        <==> IncompleteSession(body.fields["sessionData"])
  {
  }

  /** Past both gates the answer is 200 with the result of `structureText`,
      and that body always passes the structured-result schema. */
  lemma PostAnswersValidRequests(body: Json, chain: ChainOutcome)
    requires !body.JNull? && !MissingInput(body) && !IncompleteSession(body.fields["sessionData"])
    ensures Post(Body(body), chain).status == 200
    ensures Post(Body(body), chain).body
         == EncodeOutput(StructureText(body.fields["transcription"], body.fields["sessionData"], chain))
    ensures IsStructuredShape(Post(Body(body), chain).body)
  {
    StructureTextIsWellFormed(body.fields["transcription"], body.fields["sessionData"], chain);
  }

  /** Every 200 body passes the schema: the route never sends a malformed
      structured result. */
  lemma PostSuccessIsWellFormed(request: Request, chain: ChainOutcome)
    ensures Post(request, chain).status == 200 ==>
      ParseStructuredOutput(Post(request, chain).body).Some?
  {
    if Post(request, chain).status == 200 {
      var body := request.json;
      ParseEncodeRoundTrip(StructureText(body.fields["transcription"], body.fields["sessionData"], chain));
    }
  }

  /** A failing chain in a valid request is masked: the answer is still 200,
      with the fallback as its body. */
  lemma PostMasksChainFailure(body: Json, error: Thrown)
    requires !body.JNull? && !MissingInput(body) && !IncompleteSession(body.fields["sessionData"])
    ensures Post(Body(body), ChainThrew(error)) == JsonResponse(200, EncodeOutput(Fallback()))
  {
  }

  /** The request body a page sends for a transcript and session data. */
  function PageRequest(transcription: string, session: SessionData): Json
  {
    JObject(map["transcription" := JString(transcription), "sessionData" := SessionJson(session)])
  }

  /** Every session the setup form accepts also passes `validateSessionData`
      and the route's gates. */
  lemma ServerAcceptsWhatFormAccepts(transcription: string, d: SessionData, chain: ChainOutcome)
    requires transcription != "" && SessionSetup.IsFormValid(d)
    ensures ValidateSessionData(SessionJson(d)) == Ok(d)
    ensures Post(Body(PageRequest(transcription, d)), chain).status == 200
  {
    SessionSetup.FormValidIffNoBlankField(d);
    ValidateSessionDataDoesNotTrim(d);
    PostOnPageRequest(transcription, d, chain);
  }

  /** The converse fails on white space: a session with a non-empty but blank
      field is rejected by the setup form, yet passes `validateSessionData`
      and the route's gates. */
  lemma ServerAcceptsBlankFieldsFormRejects(transcription: string, d: SessionData, chain: ChainOutcome)
    requires transcription != "" && d.name != "" && d.description != "" && d.objective != ""
    requires SessionSetup.Blank(d.name) || SessionSetup.Blank(d.description) || SessionSetup.Blank(d.objective)
    ensures !SessionSetup.IsFormValid(d)
    ensures ValidateSessionData(SessionJson(d)) == Ok(d)
    ensures Post(Body(PageRequest(transcription, d)), chain).status == 200
  {
    SessionSetup.BlankFieldInvalidatesForm(d);
    ValidateSessionDataDoesNotTrim(d);
    PostOnPageRequest(transcription, d, chain);
  }

  /** For a page's request, the route answers 200 exactly when the transcript
      and all three session fields are non-empty. */
  lemma PostOnPageRequest(transcription: string, session: SessionData, chain: ChainOutcome)
    ensures var r := Post(Body(PageRequest(transcription, session)), chain);
      (r.status == 200 <==> transcription != "" && session.name != "" && session.description != "" && session.objective != "")
      && (r.status == 200 ==> r.body == EncodeOutput(StructureText(JString(transcription), PageRequest(transcription, session).fields["sessionData"], chain)))
      && (r.status != 200 ==> r.status == 400)
  {
  }
}
