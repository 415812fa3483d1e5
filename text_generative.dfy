/** Generation dispatch of src/Models/textGenerative.js: alias resolution,
    the request contents, and the chain of guards that turns the generation
    service's answer into a success or failure result. The service call is
    the function parameter `api`; its answer is the datatype `ApiOutcome`. */
module TextGeneration {
  import opened Wrappers
  import opened MemoryStore

  /** `MODELS`: alias to model identifier. */
  const Models: map<string, string> :=
    map["lite" := "gemini-2.5-flash-lite", "flash" := "gemini-2.5-flash", "pro" := "gemini-2.5-pro"]

  /** The aliases of `MODELS` in their declaration order, which is the order
      `Object.keys` reports them in. */
  const ModelAliases: seq<string> := ["lite", "flash", "pro"]

  /** `DEFAULT_MODEL`. */
  const DefaultModel: string := "lite"

  /** The persona instruction sent as the first turn of every request. */
  const SystemInstruction: string :=
    "Você é uma assistente de IA chamada Miku Nakano. Você é amigável, atenciosa, criativa e fala em português de forma natural e descontraída. Responda de maneira útil e envolvente."

  /** `getModel`: the identifier of a known alias, otherwise that of the
      default alias. */
  function GetModel(alias: string): (id: string)
    ensures id in Models.Values
    ensures alias in Models ==> id == Models[alias]
    ensures alias !in Models ==> id == Models[DefaultModel]
  {
    if alias in Models then Models[alias] else Models[DefaultModel]
  }

  /** An alias resolves to the default model's identifier exactly when it is
      not `flash` or `pro`: the default alias itself and every unknown alias
      fall back to `gemini-2.5-flash-lite`. */
  lemma GetModelFallsBack(alias: string)
    ensures GetModel(alias) == GetModel(DefaultModel) <==> alias != "flash" && alias != "pro"
    ensures GetModel(DefaultModel) == "gemini-2.5-flash-lite"
  {
    if alias == "flash" || alias == "pro" {
      assert GetModel(alias) != "gemini-2.5-flash-lite";
    }
  }

  /** `getAvailableModels`: every alias once, in declaration order, each
      resolving to its own identifier. */
  function GetAvailableModels(): (aliases: seq<string>)
    ensures |aliases| == |Models|
    ensures forall a :: a in aliases <==> a in Models
    ensures forall i, j :: 0 <= i < j < |aliases| ==> aliases[i] != aliases[j]
    ensures forall i, j :: 0 <= i < j < |aliases| ==> GetModel(aliases[i]) != GetModel(aliases[j])
  {
    assert |Models.Keys| == 3 by {
      assert Models.Keys == {"lite", "flash", "pro"};
    }
    ModelAliases
  }

  /** One text part of a request turn. */
  datatype Part = Part(text: string)

  /** One request turn: `{ role, parts }`. */
  datatype Content = Content(role: string, parts: seq<Part>)

  /** The service's name for a transcript role: `assistant` becomes `model`,
      every other role passes through. */
  function ApiRole(role: string): string
  {
    if role == "assistant" then "model" else role
  }

  /** The transcript as request turns, entry by entry. */
  function HistoryContents(history: seq<Entry>): (contents: seq<Content>)
    ensures |contents| == |history|
    ensures forall i :: 0 <= i < |history| ==>
      contents[i] == Content(ApiRole(history[i].role), [Part(history[i].content)])
  {
    if history == [] then []
    else [Content(ApiRole(history[0].role), [Part(history[0].content)])] + HistoryContents(history[1..])
  }

  /** The request contents: the persona as a user turn, the transcript in
      order, then the prompt as a user turn. */
  function BuildContents(prompt: string, history: seq<Entry>): (contents: seq<Content>)
    ensures |contents| == |history| + 2
    ensures contents[0] == Content("user", [Part(SystemInstruction)])
    ensures contents[|contents| - 1] == Content("user", [Part(prompt)])
    ensures forall i :: 0 <= i < |history| ==>
      contents[i + 1] == Content(ApiRole(history[i].role), [Part(history[i].content)])
  {
    [Content("user", [Part(SystemInstruction)])] + HistoryContents(history) + [Content("user", [Part(prompt)])]
  }

  /** Reads a request turn back as a transcript entry. */
  function EntryOf(c: Content): Entry
  {
    Entry(if c.role == "model" then "assistant" else c.role, if |c.parts| > 0 then c.parts[0].text else "")
  }

  /** The transcript a request carries between persona and prompt. */
  function HistoryOf(contents: seq<Content>): seq<Entry>
    requires |contents| >= 2
  {
    seq(|contents| - 2, i requires 0 <= i < |contents| - 2 => EntryOf(contents[i + 1]))
  }

  /** A transcript made only of `user` and `assistant` turns (as the store
      holds) is carried without loss: reading the request back gives it again. */
  lemma {:induction false} HistoryRoundTrip(prompt: string, history: seq<Entry>)
    requires forall i :: 0 <= i < |history| ==> history[i].role in {"user", "assistant"}
    ensures HistoryOf(BuildContents(prompt, history)) == history
  {
    var contents := BuildContents(prompt, history);
    forall i | 0 <= i < |history|
      ensures HistoryOf(contents)[i] == history[i]
    {
      assert contents[i + 1] == Content(ApiRole(history[i].role), [Part(history[i].content)]);
    }
  }

  /** One part of a returned candidate; `text` is `None` when undefined or null. */
  datatype ApiPart = ApiPart(text: Option<string>)

  /** A candidate's `content`; `parts` is `None` when missing, and a part is
      `None` when it is null. */
  datatype ApiContent = ApiContent(parts: Option<seq<Option<ApiPart>>>)

  /** One returned candidate. */
  datatype Candidate = Candidate(finishReason: Option<string>, content: Option<ApiContent>)

  /** The `error` object of a returned result. */
  datatype ApiError = ApiError(message: Option<string>)

  /** A returned result object: `candidates` is `None` when missing. */
  datatype ApiResponse = ApiResponse(candidates: Option<seq<Candidate>>, error: Option<ApiError>)

  /** What the service call does: throws an error with a message, or returns
      a result (`None` when the result is undefined or null). */
  datatype ApiOutcome = Threw(message: Option<string>) | Returned(result: Option<ApiResponse>)

  /** What `generateResponse` answers. */
  datatype Generation =
    | Success(response: string, model: string, modelAlias: string, finishReason: Option<string>)
    | Failure(error: string)

  const ApiReturnedError: string := "API returned an error."
  const UnexpectedStructure: string := "Estrutura de resposta da API inesperada (verifique result.candidates)."
  const NoCandidates: string := "Nenhuma resposta válida foi gerada pela IA."
  const SafetyBlocked: string := "A resposta foi bloqueada por motivos de segurança."
  const NoContent: string := "A resposta da IA não contém conteúdo válido."
  const EmptyText: string := "A resposta da IA está vazia."
  const UnexpectedError: string := "Ocorreu um erro inesperado ao processar sua solicitação."

  /** The `catch` block: an error becomes a failure carrying its message, or
      the fixed fallback text when the message is missing or empty. */
  function Caught(message: Option<string>): (r: Generation)
    ensures r.Failure? && r.error != ""
  {
    Failure(OrElse(message, UnexpectedError))
  }

  /** The service answered usably: a result with a non-empty candidate list
      whose first candidate was not blocked and has a first part with text. */
  predicate Usable(outcome: ApiOutcome)
  {
    outcome.Returned? && outcome.result.Some? &&
    var res := outcome.result.value;
    res.candidates.Some? && |res.candidates.value| > 0 &&
    var c := res.candidates.value[0];
    c.finishReason != Some("SAFETY") &&
    c.content.Some? && c.content.value.parts.Some? && |c.content.value.parts.value| > 0 &&
    c.content.value.parts.value[0].Some? && c.content.value.parts.value[0].value.text.Some?
  }

  /** The first candidate of a usable answer. */
  function FirstCandidate(outcome: ApiOutcome): Candidate
    requires Usable(outcome)
  {
    outcome.result.value.candidates.value[0]
  }

  /** The text of the first part of the first candidate of a usable answer. */
  function FirstText(outcome: ApiOutcome): string
    requires Usable(outcome)
  {
    FirstCandidate(outcome).content.value.parts.value[0].value.text.value
  }

  /** The guards of `generateResponse` after the call, in order, with every
      `throw` routed through the `catch`. */
  function Classify(outcome: ApiOutcome, model: string, modelAlias: string): (r: Generation)
    ensures r.Success? <==> Usable(outcome)
    ensures r.Success? ==>
              r.response == FirstText(outcome) && r.model == model &&
              r.modelAlias == modelAlias && r.finishReason == FirstCandidate(outcome).finishReason
    ensures r.Failure? ==> r.error != ""
  {
    match outcome
    case Threw(message) => Caught(message)
    case Returned(result) =>
      if result.None? || result.value.candidates.None? then
        if result.Some? && result.value.error.Some? then
          Caught(Some(OrElse(result.value.error.value.message, ApiReturnedError)))
        else
          Caught(Some(UnexpectedStructure))
      else
        var candidates := result.value.candidates.value;
        if |candidates| == 0 then Caught(Some(NoCandidates))
        else
          var candidate := candidates[0];
          var finishReason := candidate.finishReason;
          // A finish reason other than STOP and SAFETY is only logged.
          if finishReason == Some("SAFETY") then Caught(Some(SafetyBlocked))
          else if candidate.content.None? || candidate.content.value.parts.None?
               || |candidate.content.value.parts.value| == 0 then Caught(Some(NoContent))
          else
            var part := candidate.content.value.parts.value[0];
            if part.None? || part.value.text.None? then Caught(Some(EmptyText))
            else Success(part.value.text.value, model, modelAlias, finishReason)
  }

  /** `generateResponse(prompt, history = [], modelAlias = DEFAULT_MODEL)`:
      resolves the alias, sends persona, transcript and prompt to `api`, and
      classifies what comes back; it never fails other than by a `Failure`. */
  function GenerateResponse(api: (string, seq<Content>) -> ApiOutcome, prompt: string,
                            history: seq<Entry> := [], modelAlias: string := DefaultModel): (r: Generation)
    ensures var outcome := api(GetModel(modelAlias), BuildContents(prompt, history));
            (r.Success? <==> Usable(outcome)) &&
            (r.Success? ==> r.response == FirstText(outcome) && r.model == GetModel(modelAlias) &&
                            r.modelAlias == modelAlias && r.finishReason == FirstCandidate(outcome).finishReason) &&
            (r.Failure? ==> r.error != "")
  {
    var model := GetModel(modelAlias);
    var contents := BuildContents(prompt, history);
    Classify(api(model, contents), model, modelAlias)
  }

  /** The service returned a non-empty candidate list. */
  predicate HasCandidates(outcome: ApiOutcome)
  {
    outcome.Returned? && outcome.result.Some? &&
    outcome.result.value.candidates.Some? && |outcome.result.value.candidates.value| > 0
  }

  /** The first of the returned candidates. */
  function Leading(outcome: ApiOutcome): Candidate
    requires HasCandidates(outcome)
  {
    outcome.result.value.candidates.value[0]
  }

  /** The candidate has content with at least one part. */
  predicate HasParts(c: Candidate)
  {
    c.content.Some? && c.content.value.parts.Some? && |c.content.value.parts.value| > 0
  }

  /** The error each failing guard reports, in the order the guards run. */
  lemma FailureMessages(outcome: ApiOutcome, model: string, alias: string)
    ensures outcome == Returned(None) ==> Classify(outcome, model, alias) == Failure(UnexpectedStructure)
    ensures outcome.Returned? && outcome.result.Some? && outcome.result.value.candidates.None? ==>
      Classify(outcome, model, alias) == Failure(
        if outcome.result.value.error.Some? then OrElse(outcome.result.value.error.value.message, ApiReturnedError)
        else UnexpectedStructure)
    ensures outcome.Threw? ==> Classify(outcome, model, alias) == Failure(OrElse(outcome.message, UnexpectedError))
    ensures outcome.Returned? && outcome.result.Some? && outcome.result.value.candidates == Some([]) ==>
      Classify(outcome, model, alias) == Failure(NoCandidates)
    ensures HasCandidates(outcome) && Leading(outcome).finishReason == Some("SAFETY") ==>
      Classify(outcome, model, alias) == Failure(SafetyBlocked)
    ensures HasCandidates(outcome) && Leading(outcome).finishReason != Some("SAFETY") && !HasParts(Leading(outcome)) ==>
      Classify(outcome, model, alias) == Failure(NoContent)
    ensures HasCandidates(outcome) && Leading(outcome).finishReason != Some("SAFETY") && HasParts(Leading(outcome)) &&
            (Leading(outcome).content.value.parts.value[0].None? ||
             Leading(outcome).content.value.parts.value[0].value.text.None?) ==>
      Classify(outcome, model, alias) == Failure(EmptyText)
  {
  }

  /** The four situations the service can be forced into: an error, an empty
      candidate list, a safety block, and a well-formed single candidate; only
      the last one succeeds, whatever its finish reason, even with empty text. */
  lemma ForcedOutcomes(text: string, reason: Option<string>, errorMessage: string)
    requires reason != Some("SAFETY")
    ensures Classify(Threw(Some(errorMessage)), "m", "a").Failure?
    ensures Classify(Returned(Some(ApiResponse(Some([]), None))), "m", "a") == Failure(NoCandidates)
    ensures var blocked := Candidate(Some("SAFETY"), Some(ApiContent(Some([Some(ApiPart(Some(text)))]))));
            Classify(Returned(Some(ApiResponse(Some([blocked]), None))), "m", "a") == Failure(SafetyBlocked)
    ensures var fine := Candidate(reason, Some(ApiContent(Some([Some(ApiPart(Some(text)))]))));
            Classify(Returned(Some(ApiResponse(Some([fine]), None))), "m", "a") == Success(text, "m", "a", reason)
  {
  }
}
