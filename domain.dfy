/** The records that the pages, the routes and the structuring library share
    (each source file declares its own copy of these interfaces). */
module Domain {
  import opened Js

  /** The session context entered in the setup form. */
  datatype SessionData = SessionData(name: string, description: string, objective: string)

  /** One category of the structured result. */
  datatype Category = Category(title: string, description: string, insights: seq<string>)

  /** The structured result: a summary and its categories. */
  datatype StructuredOutput = StructuredOutput(summary: string, categories: seq<Category>)

  /** A browser `File` chosen in the upload tab; only its name matters here. */
  datatype AudioFile = AudioFile(name: string, size: nat)

  /** What a page's `fetch("/api/structure")` came to: a response with `ok` set
      and a body that parsed as JSON, a response whose `ok` is false, or a throw
      (network failure, or a body that `response.json()` could not parse). */
  datatype StructureFetch = OkJson(body: Json) | NotOk(status: int) | FetchThrew(error: Thrown)

  /** The message both pages show when structuring fails. */
  const StructuringErrorMessage := "Kunne ikke generere strukturert utgang. Prøv igjen."
}
