/** `OpenAIWrapper` of v1/log_model.py: an MLflow model whose user message is a prompt
    template, registered under `uc_schema.prompt_name`, filled with the joined content and
    a sentence count. Loading and filling the template is MLflow's business: the filling is
    the parameter `fill`, applied to the arguments `format_inputs` passes it. */
module TemplateWrapper {
  import opened Outcomes
  import opened Text
  import opened ModelIO

  /** The state `load_context` leaves behind (the loaded template itself is not modelled). */
  datatype Wrapper = Wrapper(numSentences: ConfigValue)

  /** The keyword arguments of `self.prompt.format(content=..., num_sentences=...)`. */
  datatype TemplateArgs = TemplateArgs(content: string, numSentences: ConfigValue)

  const DefaultNumSentences: ConfigValue := Int(20)
  const NumSentencesMessage: string := "Number of sentences must be a positive integer."
  const SystemMessage: string := "You are a helpful assistant."

  /** `isinstance(v, int) and v > 0`; `bool` is a subclass of `int` in Python, so `True`
      passes and `False` does not. */
  predicate IsPositiveInt(v: ConfigValue)
  {
    match v
    case Int(i) => i > 0
    case Bool(b) => b
    case _ => false
  }

  /** `model_config.get("num_sentences", 20)`. */
  function NumSentencesSetting(config: map<string, ConfigValue>): (n: ConfigValue)
    ensures "num_sentences" !in config ==> n == DefaultNumSentences
    ensures "num_sentences" in config ==> n == config["num_sentences"]
  {
    if "num_sentences" in config then config["num_sentences"] else DefaultNumSentences
  }

  /** `load_context`: the three prompt keys are looked up first (a missing one raises
      `KeyError`), then `num_sentences`, 20 when absent, must be a positive integer and is
      kept as given. */
  function LoadContext(config: map<string, ConfigValue>): (r: Result<Wrapper>)
    ensures "uc_schema" !in config ==> r == Err(KeyError("uc_schema"))
    ensures "uc_schema" in config && "prompt_name" !in config ==> r == Err(KeyError("prompt_name"))
    ensures "uc_schema" in config && "prompt_name" in config && "prompt_version" !in config ==>
              r == Err(KeyError("prompt_version"))
    ensures r.Ok? <==> "uc_schema" in config && "prompt_name" in config && "prompt_version" in config
                       && IsPositiveInt(NumSentencesSetting(config))
    ensures r.Ok? && "num_sentences" !in config ==> r.value.numSentences == Int(20)
    ensures r.Ok? && "num_sentences" in config ==> r.value.numSentences == config["num_sentences"]
    ensures r.Err? && "uc_schema" in config && "prompt_name" in config && "prompt_version" in config ==>
              r.fault == ValueError(NumSentencesMessage)
  {
    if "uc_schema" !in config then Err(KeyError("uc_schema"))
    else if "prompt_name" !in config then Err(KeyError("prompt_name"))
    else if "prompt_version" !in config then Err(KeyError("prompt_version"))
    else
      var n := NumSentencesSetting(config);
      var isInt := n.Int? || n.Bool?;
      if !isInt || (n.Int? && n.i <= 0) || (n.Bool? && !n.b) then Err(ValueError(NumSentencesMessage))
      else Ok(Wrapper(n))
  }

  /** The sentence-count boundaries: the default 20, 1 and `True` are accepted and kept,
      0 and the string "20" are rejected. */
  lemma NumSentencesBoundaries(base: map<string, ConfigValue>)
    requires "uc_schema" in base && "prompt_name" in base && "prompt_version" in base
    requires "num_sentences" !in base
    ensures LoadContext(base) == Ok(Wrapper(Int(20)))
    ensures LoadContext(base["num_sentences" := Int(1)]) == Ok(Wrapper(Int(1)))
    ensures LoadContext(base["num_sentences" := Bool(true)]) == Ok(Wrapper(Bool(true)))
    ensures LoadContext(base["num_sentences" := Int(0)]) == Err(ValueError(NumSentencesMessage))
    ensures LoadContext(base["num_sentences" := Str("20")]) == Err(ValueError(NumSentencesMessage))
  {
  }

  /** `format_inputs`: the joined content and the stored sentence count, or a `ValueError`
      when the content is empty, before any template is filled. */
  function FormatInputs(w: Wrapper, rows: seq<string>): (r: Result<TemplateArgs>)
    ensures r.Err? <==> (rows == [] || rows == [""])
    ensures r.Err? ==> r.fault == ValueError(EmptyContentMessage)
    ensures r.Ok? ==> r.value.content == Join(rows) && r.value.content != ""
    ensures r.Ok? ==> r.value.numSentences == w.numSentences
  {
    var content :- JoinedContent(rows);
    Ok(TemplateArgs(content, w.numSentences))
  }

  /** The language-model call `predict` makes with the filled template. */
  function TemplateCall(modelConfig: map<string, ConfigValue>, filled: string): LlmCall
  {
    LlmCall(ConfiguredModel(modelConfig), SystemMessage, filled)
  }

  /** `predict`: empty content is rejected before any call; otherwise the filled template
      goes to the language model as the user message, under a fixed system message, and
      the reply comes back as a one-element list. An exception the client raises escapes
      unchanged. */
  function Predict(w: Wrapper, modelConfig: map<string, ConfigValue>, rows: seq<string>,
                   fill: TemplateArgs -> string, llm: LibraryCall<LlmCall, string>): (r: Answered<PyValue>)
    ensures r.call.None? <==> (rows == [] || rows == [""])
    ensures r.call.None? ==> r.result == Err(ValueError(EmptyContentMessage))
    ensures r.call.Some? ==> r.call.value.model == ConfiguredModel(modelConfig) && r.call.value.system == SystemMessage
                             && r.call.value.user == fill(TemplateArgs(Join(rows), w.numSentences))
    ensures r.call.Some? && llm(r.call.value).Err? ==> r.result == Err(llm(r.call.value).fault)
    ensures r.call.Some? && llm(r.call.value).Ok? ==> r.result == Ok(PyList([PyStr(llm(r.call.value).value)]))
    ensures r.result.Ok? ==> r.result.value.PyList? && |r.result.value.items| == 1
    ensures r.result.Err? && !r.result.fault.Raised? ==> r.call.None?
  {
    match FormatInputs(w, rows)
    case Err(e) => Answered(None, Err(e))
    case Ok(args) =>
      var call := TemplateCall(modelConfig, fill(args));
      Answered(Some(call), var text :- llm(call); FormatOutputs(PyStr(text)))
  }
}
