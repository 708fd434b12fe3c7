/** Input and output normalisation shared by the two MLflow model wrappers
    (`OpenAIWrapper` in log_model_with_prompt.py and in v1/log_model.py), which carry
    identical `format_outputs` methods and the same content-joining step. */
module ModelIO {
  import opened Outcomes
  import opened Text

  /** A JSON-like configuration value, as `model_config` or a config file holds it. */
  datatype ConfigValue = Str(s: string) | Int(i: int) | Bool(b: bool) | Other(repr: string)

  /** The Python values `format_outputs` tells apart. */
  datatype PyValue = PyStr(s: string) | PyList(items: seq<PyValue>) | PyOther(typeName: string)

  /** One call of the chat-completion collaborator: model, system message, user message. */
  datatype LlmCall = LlmCall(model: ConfigValue, system: string, user: string)

  /** The outcome of a step that may call the language model, with the call if one was made. */
  datatype Answered<+T> = Answered(call: Option<LlmCall>, result: Result<T>)

  const EmptyContentMessage: string := "Content must be provided for summarization."
  const OutputTypeMessage: string := "Output must be a string or a list of strings."
  const DefaultModel: ConfigValue := Str("gpt-4o-mini")

  /** `context.model_config.get("openai_model", "gpt-4o-mini")`. */
  function ConfiguredModel(config: map<string, ConfigValue>): (m: ConfigValue)
    ensures "openai_model" !in config ==> m == DefaultModel
    ensures "openai_model" in config ==> m == config["openai_model"]
  {
    if "openai_model" in config then config["openai_model"] else DefaultModel
  }

  /** `'\n'.join(list(model_input["content"]))` followed by the empty-content check. */
  function JoinedContent(rows: seq<string>): (r: Result<string>)
    ensures r.Err? <==> (rows == [] || rows == [""])
    ensures r.Err? ==> r.fault == ValueError(EmptyContentMessage)
    ensures r.Ok? ==> r.value != "" && r.value == Join(rows)
  {
    JoinEmpty(rows);
    var content := Join(rows);
    if content == "" then Err(ValueError(EmptyContentMessage)) else Ok(content)
  }

  /** Accepted newline-free rows are recovered by splitting the joined content. */
  lemma SplitJoinedContent(rows: seq<string>)
    requires forall i :: 0 <= i < |rows| ==> NL !in rows[i]
    requires JoinedContent(rows).Ok?
    ensures Split(JoinedContent(rows).value) == rows
  {
    SplitJoin(rows);
  }

  /** The rows `content.split("\n")` yields are joined back into the content itself;
      only the empty content, which splits into one empty row, is rejected. */
  lemma JoinedContentOfSplit(content: string)
    ensures JoinedContent(Split(content)) == if content == "" then Err(ValueError(EmptyContentMessage)) else Ok(content)
  {
    JoinSplit(content);
  }

  /** `format_outputs`: a list passes unchanged, a string becomes a one-element list, and
      anything else is a `ValueError`. */
  function FormatOutputs(outputs: PyValue): (r: Result<PyValue>)
    ensures r.Ok? <==> (outputs.PyStr? || outputs.PyList?)
    ensures r.Ok? ==> r.value.PyList?
    ensures outputs.PyList? ==> r == Ok(outputs)
    ensures outputs.PyStr? ==> r == Ok(PyList([outputs]))
    ensures outputs.PyOther? ==> r == Err(ValueError(OutputTypeMessage))
  {
    match outputs
    case PyList(_) => Ok(outputs)
    case PyStr(_) => Ok(PyList([outputs]))
    case PyOther(_) => Err(ValueError(OutputTypeMessage))
  }

  /** Normalising an already normalised output changes nothing. */
  lemma FormatOutputsIdempotent(outputs: PyValue)
    requires FormatOutputs(outputs).Ok?
    ensures FormatOutputs(FormatOutputs(outputs).value) == FormatOutputs(outputs)
  {
  }
}
