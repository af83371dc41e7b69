/** The generation client `generateContent`: the API-key guard, the status
    check and the extraction of the first candidate's text. The HTTP request
    itself is replaced by the `Reply` it produces. */
module Generation {
  import opened Wrappers

  /** `parts[i]` of a candidate's content; `text` may be absent. */
  datatype Part = Part(text: Option<string>)

  /** A candidate's `content`; its `parts` array may be absent. */
  datatype Content = Content(parts: Option<seq<Part>>)

  /** One element of `candidates`; its `content` may be absent. */
  datatype Candidate = Candidate(content: Option<Content>)

  /** The decoded JSON body; its `candidates` array may be absent. */
  datatype Body = Body(candidates: Option<seq<Candidate>>)

  /** What the network produces for one request. */
  datatype Reply =
    | Unreachable                               // `fetch` itself rejects
    | Response(ok: bool, json: Option<Body>)    // `json` is None when `response.json()` rejects

  /** Why a call to the generation client throws. */
  datatype Error =
    | MissingApiKey      // "API Key is missing", before any request
    | RequestFailed      // "Failed to fetch response", the status was not ok
    | TransportFailed    // `fetch` or `response.json()` rejected

  /** The text returned when the response carries no usable text. */
  const Fallback: string := "No response generated."

  /** `data.candidates?.[0]?.content?.parts?.[0]?.text`: None wherever the chain
      meets a missing field or an empty array. */
  function FirstText(body: Body): Option<string>
  {
    if body.candidates.None? || |body.candidates.value| == 0 then None
    else
      var content := body.candidates.value[0].content;
      if content.None? || content.value.parts.None? || |content.value.parts.value| == 0 then None
      else content.value.parts.value[0].text
  }

  /** The body a well-behaved service sends for the answer `t`. */
  function TextBody(t: string): (b: Body)
    ensures FirstText(b) == Some(t)
  {
    Body(Some([Candidate(Some(Content(Some([Part(Some(t))]))))]))
  }

  /** `FirstText(body) || "No response generated."`: an empty string is falsy. */
  function ExtractText(body: Body): (t: string)
    ensures t != ""
    ensures FirstText(body).Some? && FirstText(body).value != "" ==> t == FirstText(body).value
    ensures FirstText(body).None? || FirstText(body).value == "" ==> t == Fallback
  {
    match FirstText(body)
    case Some(s) => if s != "" then s else Fallback
    case None => Fallback
  }

  /** What one call of `generateContent(apiKey, prompt, systemInstruction)`
      evaluates to when the network answers `reply`; with an empty key the
      reply is never consulted, because no request is made. */
  function GenerateContent(apiKey: string, reply: Reply): (r: Result<string, Error>)
    ensures apiKey == "" ==> r == Err(MissingApiKey)
    ensures r.Ok? <==> apiKey != "" && reply.Response? && reply.ok && reply.json.Some?
    ensures apiKey != "" && reply.Response? && !reply.ok ==> r == Err(RequestFailed)
    ensures apiKey != "" && reply.Unreachable? ==> r == Err(TransportFailed)
    ensures r.Ok? ==> r.value != "" && r.value == ExtractText(reply.json.value)
  {
    if apiKey == "" then Err(MissingApiKey)
    else
      match reply
      case Unreachable => Err(TransportFailed)
      case Response(ok, json) =>
        if !ok then Err(RequestFailed)
        else if json.None? then Err(TransportFailed)
        else Ok(ExtractText(json.value))
  }

  /** A service that answers `t` is heard as `t` when `t` is non-empty, and as
      the fallback text when `t` is empty. */
  lemma {:induction false} AnswerRoundTrip(apiKey: string, t: string)
    requires apiKey != ""
    ensures t != "" ==> GenerateContent(apiKey, Response(true, Some(TextBody(t)))) == Ok(t)
    ensures t == "" ==> GenerateContent(apiKey, Response(true, Some(TextBody(t)))) == Ok(Fallback)
  {
    var b := TextBody(t);
    assert FirstText(b) == Some(t);
  }
}
