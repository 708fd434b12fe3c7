/** `OpenAIWrapper` of log_model_with_prompt.py: an MLflow model whose system prompt is
    the first line of a prompt artifact and whose input is the `content` column joined
    with newlines. */
module PromptWrapper {
  import opened Outcomes
  import opened Text
  import opened ModelIO

  /** The state `load_context` leaves behind. */
  datatype Wrapper = Wrapper(prompt: string)

  const ArtifactKey: string := "prompt"
  const NoPathMessage: string := "expected str, bytes or os.PathLike object, not NoneType"

  /** `load_context`: the prompt is the first line of the `prompt` artifact. Without that
      artifact, `open(None, ...)` raises a `TypeError`. */
  function LoadContext(artifacts: map<string, string>, readFile: string -> string): (r: Result<Wrapper>)
    ensures r.Ok? <==> ArtifactKey in artifacts
    ensures r.Err? ==> r.fault == TypeError(NoPathMessage)
    ensures r.Ok? ==> var text := readFile(artifacts[ArtifactKey]);
                      && |r.value.prompt| <= |text| && text[..|r.value.prompt|] == r.value.prompt
                      && (forall k :: 0 <= k < |r.value.prompt| - 1 ==> r.value.prompt[k] != NL)
                      && (NL in text <==> |r.value.prompt| > 0 && r.value.prompt[|r.value.prompt| - 1] == NL)
                      && (NL !in text ==> r.value.prompt == text)
  {
    if ArtifactKey in artifacts then Ok(Wrapper(FirstLine(readFile(artifacts[ArtifactKey]))))
    else Err(TypeError(NoPathMessage))
  }

  /** `format_inputs`: the rows joined with newlines, rejected when that text is empty. */
  function FormatInputs(rows: seq<string>): (r: Result<string>)
    ensures r.Err? <==> (rows == [] || rows == [""])
    ensures r.Err? ==> r.fault == ValueError(EmptyContentMessage)
    ensures r.Ok? ==> r.value == Join(rows)
  {
    JoinedContent(rows)
  }

  /** The language-model call `predict` makes for non-empty content. */
  function PromptCall(w: Wrapper, modelConfig: map<string, ConfigValue>, content: string): LlmCall
  {
    LlmCall(ConfiguredModel(modelConfig), w.prompt, content)
  }

  /** `predict`: empty content is rejected before any call; otherwise one language-model
      call with the configured model, the loaded prompt as system message and the joined
      rows as user message. Its text comes back as a one-element list, and an exception
      the client raises escapes unchanged. */
  function Predict(w: Wrapper, modelConfig: map<string, ConfigValue>, rows: seq<string>,
                   llm: LibraryCall<LlmCall, string>): (r: Answered<PyValue>)
    ensures r.call.None? <==> Join(rows) == ""
    ensures r.call.None? ==> r.result == Err(ValueError(EmptyContentMessage))
    ensures r.call.Some? ==> r.call.value.model == ConfiguredModel(modelConfig)
                             && r.call.value.system == w.prompt && r.call.value.user == Join(rows)
    ensures r.call.Some? && llm(r.call.value).Err? ==> r.result == Err(llm(r.call.value).fault)
    ensures r.call.Some? && llm(r.call.value).Ok? ==> r.result == Ok(PyList([PyStr(llm(r.call.value).value)]))
    ensures r.result.Ok? ==> r.result.value.PyList? && |r.result.value.items| == 1
    ensures r.result.Err? && !r.result.fault.Raised? ==> r.call.None?
  {
    JoinEmpty(rows);
    match FormatInputs(rows)
    case Err(e) => Answered(None, Err(e))
    case Ok(content) =>
      var call := PromptCall(w, modelConfig, content);
      Answered(Some(call), var text :- llm(call); FormatOutputs(PyStr(text)))
  }

  /** The prompt `load_context` keeps is the first line iterating the artifact file yields. */
  lemma LoadContextKeepsFirstFileLine(artifacts: map<string, string>, readFile: string -> string)
    requires ArtifactKey in artifacts && readFile(artifacts[ArtifactKey]) != ""
    ensures LoadContext(artifacts, readFile).Ok?
    ensures LoadContext(artifacts, readFile).value.prompt == FileLines(readFile(artifacts[ArtifactKey]))[0]
  {
    FirstLineIsFirstFileLine(readFile(artifacts[ArtifactKey]));
  }
}
