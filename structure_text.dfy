/** The structuring library: the zod shape schema for the structured result, the
    success-or-fallback result of `structureText`, and `validateSessionData`.
    The LangChain prompt, model and JSON parser are one collaborator whose
    outcome is a parameter. */
module Structuring {
  import opened Js
  import opened Domain

  // ---------------------------------------------------------------------------
  // The JSON form of a structured result (what `NextResponse.json` sends)
  // ---------------------------------------------------------------------------

  function EncodeStrings(xs: seq<string>): seq<Json>
  {
    if xs == [] then [] else [JString(xs[0])] + EncodeStrings(xs[1..])
  }

  function EncodeCategory(c: Category): Json
  {
    JObject(map[
      "title" := JString(c.title),
      "description" := JString(c.description),
      "insights" := JArray(EncodeStrings(c.insights))])
  }

  function EncodeCategories(cs: seq<Category>): seq<Json>
  {
    if cs == [] then [] else [EncodeCategory(cs[0])] + EncodeCategories(cs[1..])
  }

  function EncodeOutput(o: StructuredOutput): Json
  {
    JObject(map[
      "summary" := JString(o.summary),
      "categories" := JArray(EncodeCategories(o.categories))])
  }

  // ---------------------------------------------------------------------------
  // The shape the schema describes, stated directly
  // ---------------------------------------------------------------------------

  /** `j.key` exists and is a string. */
  ghost predicate HasString(j: Json, key: string)
  {
    j.JObject? && key in j.fields && j.fields[key].JString?
  }

  /** `j.key` exists and is an array. */
  ghost predicate HasArray(j: Json, key: string)
  {
    j.JObject? && key in j.fields && j.fields[key].JArray?
  }

  /** CategoryOutputSchema: an object with string `title`, string `description`
      and an array `insights` of strings; any number of insights, other keys
      ignored. */
  ghost predicate IsCategoryShape(j: Json)
  {
    && HasString(j, "title")
    && HasString(j, "description")
    && HasArray(j, "insights")
    && forall k :: 0 <= k < |j.fields["insights"].items| ==> j.fields["insights"].items[k].JString?
  }

  /** StructuredOutputSchema: an object with string `summary` and an array
      `categories` whose every element has the category shape; no bound on the
      number of categories. */
  ghost predicate IsStructuredShape(j: Json)
  {
    && HasString(j, "summary")
    && HasArray(j, "categories")
    && forall k :: 0 <= k < |j.fields["categories"].items| ==> IsCategoryShape(j.fields["categories"].items[k])
  }

  // ---------------------------------------------------------------------------
  // The schema's parse: accept the shape, keep only the declared keys
  // ---------------------------------------------------------------------------

  /** `z.array(z.string())`. */
  function ParseStrings(items: seq<Json>): (r: Option<seq<string>>)
    ensures r.Some? <==> forall k :: 0 <= k < |items| ==> items[k].JString?
    ensures r.Some? ==> |r.value| == |items| && forall k :: 0 <= k < |items| ==> r.value[k] == items[k].s
  {
    if items == [] then Some([])
    else if !items[0].JString? then None
    else
      match ParseStrings(items[1..])
      case None => None
      case Some(rest) => Some([items[0].s] + rest)
  }

  /** `CategoryOutputSchema.parse`. */
  function ParseCategory(j: Json): (r: Option<Category>)
    ensures r.Some? <==> IsCategoryShape(j)
    ensures r.Some? ==>
      && r.value.title == j.fields["title"].s
      && r.value.description == j.fields["description"].s
      && Some(r.value.insights) == ParseStrings(j.fields["insights"].items)
  {
    match (Get(j, "title"), Get(j, "description"), Get(j, "insights"))
    case (Some(JString(title)), Some(JString(description)), Some(JArray(items))) =>
      (match ParseStrings(items)
       case Some(insights) => Some(Category(title, description, insights))
       case None => None)
    case _ => None
  }

  /** `z.array(CategoryOutputSchema)`. */
  function ParseCategories(items: seq<Json>): (r: Option<seq<Category>>)
    ensures r.Some? <==> forall k :: 0 <= k < |items| ==> IsCategoryShape(items[k])
    ensures r.Some? ==> |r.value| == |items| && forall k :: 0 <= k < |items| ==> Some(r.value[k]) == ParseCategory(items[k])
  {
    if items == [] then Some([])
    else
      match (ParseCategory(items[0]), ParseCategories(items[1..]))
      case (Some(c), Some(rest)) => Some([c] + rest)
      case _ => None
  }

  /** `StructuredOutputSchema.parse`: the validated value, or None where zod
      throws. */
  function ParseStructuredOutput(j: Json): (r: Option<StructuredOutput>)
    ensures r.Some? <==> IsStructuredShape(j)
    ensures r.Some? ==>
      && r.value.summary == j.fields["summary"].s
      && Some(r.value.categories) == ParseCategories(j.fields["categories"].items)
  {
    match (Get(j, "summary"), Get(j, "categories"))
    case (Some(JString(summary)), Some(JArray(items))) =>
      (match ParseCategories(items)
       case Some(categories) => Some(StructuredOutput(summary, categories))
       case None => None)
    case _ => None
  }

  // ---------------------------------------------------------------------------
  // Round trip and key stripping
  // ---------------------------------------------------------------------------

  lemma {:induction false} ParseEncodeStrings(xs: seq<string>)
    ensures ParseStrings(EncodeStrings(xs)) == Some(xs)
  {
    if xs != [] {
      ParseEncodeStrings(xs[1..]);
      assert EncodeStrings(xs)[1..] == EncodeStrings(xs[1..]);
      assert [xs[0]] + xs[1..] == xs;
    }
  }

  lemma ParseEncodeCategory(c: Category)
    ensures ParseCategory(EncodeCategory(c)) == Some(c)
  {
    ParseEncodeStrings(c.insights);
  }

  lemma {:induction false} ParseEncodeCategories(cs: seq<Category>)
    ensures ParseCategories(EncodeCategories(cs)) == Some(cs)
  {
    if cs != [] {
      ParseEncodeCategory(cs[0]);
      ParseEncodeCategories(cs[1..]);
      assert EncodeCategories(cs)[1..] == EncodeCategories(cs[1..]);
      assert [cs[0]] + cs[1..] == cs;
    }
  }

  /** Every structured result, sent as JSON and read back through the schema,
      is accepted and comes back unchanged: counts of zero categories or zero
      insights included. */
  lemma ParseEncodeRoundTrip(o: StructuredOutput)
    ensures IsStructuredShape(EncodeOutput(o))
    ensures ParseStructuredOutput(EncodeOutput(o)) == Some(o)
  {
    ParseEncodeCategories(o.categories);
  }

  /** Validation strips undeclared keys: the validated result, sent as JSON,
      carries exactly `summary` and `categories` (and `title`, `description`
      and `insights` in each category), all of them keys of the input, with
      the input's summary; a key such as `keyTakeaways` in the input is
      dropped. */
  lemma ValidatedResultHasOnlyDeclaredKeys(j: Json, o: StructuredOutput)
    requires ParseStructuredOutput(j) == Some(o)
    ensures EncodeOutput(o).fields.Keys == {"summary", "categories"} <= j.fields.Keys
    ensures EncodeOutput(o).fields["summary"] == j.fields["summary"]
    ensures "keyTakeaways" in j.fields ==> "keyTakeaways" !in EncodeOutput(o).fields
    ensures |o.categories| == |j.fields["categories"].items|
    ensures forall k :: 0 <= k < |o.categories| ==>
      EncodeCategory(o.categories[k]).fields.Keys == {"title", "description", "insights"}
        <= j.fields["categories"].items[k].fields.Keys
    ensures ParseStructuredOutput(EncodeOutput(o)) == Some(o)
  {
    ParseEncodeRoundTrip(o);
  }

  /** The schema has no count bounds: an empty category list and a category
      with no insights are both accepted, although the prompt asks for 3-6
      categories of 3-7 insights. */
  lemma SchemaAcceptsEmptyLists(summary: string, title: string, description: string)
    ensures ParseStructuredOutput(JObject(map["summary" := JString(summary), "categories" := JArray([])]))
      == Some(StructuredOutput(summary, []))
    ensures ParseCategory(JObject(map["title" := JString(title), "description" := JString(description), "insights" := JArray([])]))
      == Some(Category(title, description, []))
  {
  }

  // ---------------------------------------------------------------------------
  // structureText: the validated value, or the fixed fallback
  // ---------------------------------------------------------------------------

  /** What the prompt -> model -> JSON parser chain delivered: a parsed JSON
      value, or a throw (the model call failed, or its reply was not JSON). */
  datatype ChainOutcome = ChainReturned(value: Json) | ChainThrew(error: Thrown)

  const FallbackSummary := "Kunne ikke generere sammendrag på grunn av behandlingsfeil. Vennligst gå gjennom transkripsjonen manuelt."
  const FallbackTitle := "Sesjonsinnhold"
  const FallbackDescription := "Råe innsikter fra brainstorming-sesjonen"
  const FallbackInsight1 := "Behandlingsfeil oppstod - vennligst gå gjennom transkripsjonen manuelt for viktige innsikter"
  const FallbackInsight2 := "Vurder å kjøre analysen på nytt eller sjekke lydkvaliteten"

  /** The result returned from the catch clause. */
  function Fallback(): StructuredOutput
  {
    StructuredOutput(FallbackSummary, [Category(FallbackTitle, FallbackDescription, [FallbackInsight1, FallbackInsight2])])
  }

  /** `structureText(transcription, sessionData)`: the inputs only reach the
      chain (they are interpolated into the prompt), whose outcome is `chain`.
      Every failure, a throw or a value the schema rejects, ends in the
      fallback; the function itself never fails. */
  function StructureText(transcription: Json, sessionData: Json, chain: ChainOutcome): (r: StructuredOutput)
    ensures chain.ChainReturned? && IsStructuredShape(chain.value) ==> ParseStructuredOutput(chain.value) == Some(r)
    ensures !(chain.ChainReturned? && IsStructuredShape(chain.value)) ==> r == Fallback()
  {
    match chain
    case ChainThrew(_) => Fallback()
    case ChainReturned(value) =>
      match ParseStructuredOutput(value)
      case Some(validated) => validated
      case None => Fallback()
  }

  /** The fallback has a fixed summary, exactly one category "Sesjonsinnhold"
      with exactly two fixed insights, and passes the schema itself. */
  lemma FallbackIsWellFormed()
    ensures Fallback().summary == FallbackSummary
    ensures |Fallback().categories| == 1
    ensures Fallback().categories[0].title == "Sesjonsinnhold"
    ensures Fallback().categories[0].insights == [FallbackInsight1, FallbackInsight2]
    ensures IsStructuredShape(EncodeOutput(Fallback()))
  {
    ParseEncodeRoundTrip(Fallback());
  }

  /** On failure the result does not depend on the transcript, the session data
      or the kind of failure. */
  lemma FallbackIgnoresInputs(t1: Json, s1: Json, c1: ChainOutcome, t2: Json, s2: Json, c2: ChainOutcome)
    requires c1.ChainThrew? || !IsStructuredShape(c1.value)
    requires c2.ChainThrew? || !IsStructuredShape(c2.value)
    ensures StructureText(t1, s1, c1) == StructureText(t2, s2, c2) == Fallback()
  {
  }

  /** Whatever the chain does, the result of `structureText` passes the schema
      when sent as JSON. */
  lemma StructureTextIsWellFormed(transcription: Json, sessionData: Json, chain: ChainOutcome)
    ensures IsStructuredShape(EncodeOutput(StructureText(transcription, sessionData, chain)))
  {
    ParseEncodeRoundTrip(StructureText(transcription, sessionData, chain));
  }

  // ---------------------------------------------------------------------------
  // validateSessionData
  // ---------------------------------------------------------------------------

  /** The issues a failing zod parse reports. */
  datatype Issue =
    | ExpectedObject
    | Required(path: string)
    | ExpectedString(path: string)
    | TooSmall(path: string, message: string)

  /** `z.string().min(1, message)` applied to `j.key`. */
  function FieldIssues(j: Json, key: string, message: string): seq<Issue>
  {
    match Get(j, key)
    case None => [Required(key)]
    case Some(JString(s)) => if |s| < 1 then [TooSmall(key, message)] else []
    case Some(_) => [ExpectedString(key)]
  }

  /** `j.key` is a string of at least one character. */
  ghost predicate HasNonEmptyString(j: Json, key: string)
  {
    HasString(j, key) && |j.fields[key].s| >= 1
  }

  /** `validateSessionData`: accepts exactly an object whose name, description
      and objective are strings of length at least one (no trimming), and
      returns those three fields; anything else throws, modelled as `Err` with
      the issues found. */
  function ValidateSessionData(data: Json): (r: Result<SessionData, seq<Issue>>)
    ensures r.Ok? <==>
      HasNonEmptyString(data, "name") && HasNonEmptyString(data, "description") && HasNonEmptyString(data, "objective")
    ensures r.Ok? ==>
      r.value == SessionData(data.fields["name"].s, data.fields["description"].s, data.fields["objective"].s)
    ensures r.Err? ==> r.error != []
    ensures !data.JObject? ==> r == Err([ExpectedObject])
  {
    if !data.JObject? then Err([ExpectedObject])
    else
      var issues :=
        FieldIssues(data, "name", "Session name is required")
        + FieldIssues(data, "description", "Session description is required")
        + FieldIssues(data, "objective", "Session objective is required");
      if issues == [] then
        Ok(SessionData(GetString(data, "name"), GetString(data, "description"), GetString(data, "objective")))
      else Err(issues)
  }

  /** The JSON form of session data, as a page sends it. */
  function SessionJson(d: SessionData): Json
  {
    JObject(map[
      "name" := JString(d.name),
      "description" := JString(d.description),
      "objective" := JString(d.objective)])
  }

  /** On session data sent as JSON the validator checks lengths only: it
      accepts exactly three non-empty fields, whitespace-only ones included,
      and returns them untrimmed. */
  lemma ValidateSessionDataDoesNotTrim(d: SessionData)
    ensures ValidateSessionData(SessionJson(d)).Ok? <==> d.name != "" && d.description != "" && d.objective != ""
    ensures ValidateSessionData(SessionJson(d)).Ok? ==> ValidateSessionData(SessionJson(d)).value == d
  {
  }
}
