/** The two experiment dispatchers of tools.py: `score_model` (routed mode, forwards the
    content rows to one of two model-serving endpoints) and `direct_summary` (direct mode,
    calls the language model with one of two prompts), plus `load_prompt`. The endpoint,
    the language model and the file system are parameters (`send`, `llm`, `readFile`);
    each outcome records the outbound call it made, if any. */
module Dispatch {
  import opened Outcomes
  import opened Text
  import opened Bucketing
  import opened ModelIO

  /** The `exp_summarization` section of experiment.config.json; "" stands for any
      falsy value. */
  datatype RoutedConfig = RoutedConfig(endpoint1: string, endpoint2: string)

  /** The `exp_direct_summarization` section of experiment.config.json. */
  datatype DirectConfig = DirectConfig(prompt1File: string, prompt2File: string, modelName: string)

  /** `dataset.to_dict(orient="split")` of the one-column frame, with the request id. */
  datatype Payload = Payload(clientRequestId: string, index: seq<nat>, columns: seq<string>, data: seq<seq<string>>)

  datatype Outbound = Outbound(url: string, payload: Payload)

  /** What `score_model` reads of the endpoint's reply: status, body text and, when the
      JSON body has one, its `predictions` list. */
  datatype Reply = Reply(status: int, text: string, predictions: Option<seq<string>>)

  datatype Scored = Scored(sent: Option<Outbound>, result: Result<string>)

  const ContentColumnName: string := "content"
  const EndpointMissing: string := "Endpoint URL not found in experiment.config.json"
  const PredictionsMissing: string := "Predictions not found in the response."
  const PromptFileMissing: string := "prompt file not found in experiment.config.json"
  const ModelNameMissing: string := "model_name not found in experiment.config.json"
  const IndexOutOfRange: string := "list index out of range"

  /** The variant a group selects: group 0 the first, any other group the second. Both
      dispatchers select through this one function. */
  function Pick<T>(group: nat, first: T, second: T): (v: T)
    ensures group == 0 ==> v == first
    ensures group != 0 ==> v == second
  {
    if group == 0 then first else second
  }

  /** `load_prompt(prompt_file)`: the first line of the file, newline included. */
  function LoadPrompt(readFile: string -> string, path: string): (prompt: string)
    ensures var text := readFile(path);
            && |prompt| <= |text| && text[..|prompt|] == prompt
            && (forall k :: 0 <= k < |prompt| - 1 ==> prompt[k] != NL)
            && (NL in text <==> |prompt| > 0 && prompt[|prompt| - 1] == NL)
            && (NL !in text ==> prompt == text)
  {
    FirstLine(readFile(path))
  }

  /** The split-orient frame of `pd.DataFrame({"content": rows})`. */
  function SplitFrame(clientRequestId: string, rows: seq<string>): (p: Payload)
    ensures p.clientRequestId == clientRequestId && p.columns == [ContentColumnName]
    ensures |p.index| == |p.data| == |rows|
    ensures forall i :: 0 <= i < |rows| ==> p.index[i] == i && p.data[i] == [rows[i]]
  {
    Payload(clientRequestId, seq(|rows|, i => i), [ContentColumnName],
            seq(|rows|, i requires 0 <= i < |rows| => [rows[i]]))
  }

  /** A frame with the single column `content`. */
  predicate IsContentFrame(p: Payload)
  {
    p.columns == [ContentColumnName] && forall i :: 0 <= i < |p.data| ==> |p.data[i]| == 1
  }

  /** `model_input["content"]` as the serving side rebuilds it from the frame. */
  function ContentColumn(p: Payload): seq<string>
    requires IsContentFrame(p)
  {
    seq(|p.data|, i requires 0 <= i < |p.data| => p.data[i][0])
  }

  /** The serving side reads back exactly the rows that were sent, in order. */
  lemma ContentColumnOfSplitFrame(clientRequestId: string, rows: seq<string>)
    ensures IsContentFrame(SplitFrame(clientRequestId, rows))
    ensures ContentColumn(SplitFrame(clientRequestId, rows)) == rows
  {
  }

  /** `bool(response)` for a `requests.Response`: `response.ok`, false for 4xx and 5xx. */
  predicate ResponseOk(status: int)
  {
    !(400 <= status < 600)
  }

  /** The reply handling of `score_model`: a status other than 200 is passed through with
      the body as detail, a 200 without `predictions` is an internal error, and otherwise
      the first prediction is the result (an empty list escapes as an `IndexError`). */
  function ReadReply(reply: Reply): (r: Result<string>)
    ensures reply.status != 200 ==> r == Err(HttpException(reply.status, reply.text))
    ensures reply.status == 200 && reply.predictions.None? ==> r == Err(HttpException(500, PredictionsMissing))
    ensures reply.status == 200 && reply.predictions == Some([]) ==> r == Err(IndexError(IndexOutOfRange))
    ensures r.Ok? <==> reply.status == 200 && reply.predictions.Some? && reply.predictions.value != []
    ensures r.Ok? ==> r.value == reply.predictions.value[0]
  {
    if !ResponseOk(reply.status) || reply.status != 200 then
      Err(HttpException(reply.status, reply.text))
    else
      match reply.predictions
      case None => Err(HttpException(500, PredictionsMissing))
      case Some(ps) => if ps == [] then Err(IndexError(IndexOutOfRange)) else Ok(ps[0])
  }

  /** `score_model(dataset, user_id, client_request_id)` with `dataset` holding `rows`.
      `send` is `requests.request`: it either returns the reply or raises its own
      exception (a connection error, say), which escapes `score_model` unchanged. Every
      `HTTPException` comes from the configuration check or from reading the reply. */
  function ScoreModel(cfg: RoutedConfig, sha256: Hasher, rows: seq<string>, userId: string,
                      clientRequestId: string, send: LibraryCall<Outbound, Reply>): (r: Scored)
    ensures r.sent.None? <==> (cfg.endpoint1 == "" || cfg.endpoint2 == "")
    ensures r.sent.None? ==> r.result == Err(HttpException(500, EndpointMissing))
    ensures r.sent.Some? && AbGroup(sha256, userId) == 0 ==> r.sent.value.url == cfg.endpoint1
    ensures r.sent.Some? && AbGroup(sha256, userId) != 0 ==> r.sent.value.url == cfg.endpoint2
    ensures r.sent.Some? ==> r.sent.value.payload.clientRequestId == clientRequestId
    ensures r.sent.Some? ==> IsContentFrame(r.sent.value.payload) && ContentColumn(r.sent.value.payload) == rows
    ensures r.sent.Some? && send(r.sent.value).Err? ==> r.result == Err(send(r.sent.value).fault)
    ensures r.sent.Some? && send(r.sent.value).Ok? ==> r.result == ReadReply(send(r.sent.value).value)
    ensures r.result.Err? && r.result.fault.HttpException? ==>
              r.sent.None? || (send(r.sent.value).Ok? && ReadReply(send(r.sent.value).value) == r.result)
  {
    if cfg.endpoint1 == "" || cfg.endpoint2 == "" then
      Scored(None, Err(HttpException(500, EndpointMissing)))
    else
      var url := Pick(AbGroup(sha256, userId), cfg.endpoint1, cfg.endpoint2);
      var out := Outbound(url, SplitFrame(clientRequestId, rows));
      ContentColumnOfSplitFrame(clientRequestId, rows);
      var result := (var reply :- send(out); ReadReply(reply));
      Scored(Some(out), result)
  }

  /** `direct_summary(input_content, user_id)`. The prompt files are read before the
      model name is checked, as in the source. `llm` is `client.responses.create`: it
      returns the output text or raises its own exception, which escapes unchanged; every
      other failure is raised before the call. */
  function DirectSummary(cfg: DirectConfig, readFile: string -> string, sha256: Hasher,
                         content: string, userId: string, llm: LibraryCall<LlmCall, string>): (r: Answered<string>)
    ensures r.call.None? <==> (cfg.prompt1File == "" || cfg.prompt2File == "" || cfg.modelName == "")
    ensures (cfg.prompt1File == "" || cfg.prompt2File == "") ==> r.result == Err(HttpException(500, PromptFileMissing))
    ensures cfg.prompt1File != "" && cfg.prompt2File != "" && cfg.modelName == "" ==>
              r.result == Err(HttpException(500, ModelNameMissing))
    ensures r.call.Some? && AbGroup(sha256, userId) == 0 ==> r.call.value.system == LoadPrompt(readFile, cfg.prompt1File)
    ensures r.call.Some? && AbGroup(sha256, userId) != 0 ==> r.call.value.system == LoadPrompt(readFile, cfg.prompt2File)
    ensures r.call.Some? ==> r.call.value.model == Str(cfg.modelName) && r.call.value.user == content
    ensures r.call.Some? ==> r.result == llm(r.call.value)
    ensures r.result.Err? && !r.result.fault.Raised? ==> r.call.None?
  {
    if cfg.prompt1File == "" || cfg.prompt2File == "" then
      Answered(None, Err(HttpException(500, PromptFileMissing)))
    else
      var prompt1 := LoadPrompt(readFile, cfg.prompt1File);
      var prompt2 := LoadPrompt(readFile, cfg.prompt2File);
      if cfg.modelName == "" then
        Answered(None, Err(HttpException(500, ModelNameMissing)))
      else
        var prompt := Pick(AbGroup(sha256, userId), prompt1, prompt2);
        var call := LlmCall(Str(cfg.modelName), prompt, content);
        Answered(Some(call), llm(call))
  }

  /** The `if not response or response.status_code != 200` guard is the same as
      `status_code != 200`: every status `requests` deems not ok differs from 200. */
  lemma ReplyGuardIsStatusCheck(status: int)
    ensures (!ResponseOk(status) || status != 200) <==> status != 200
  {
  }

  /** Both dispatchers put a user in the same arm: the first endpoint goes with the
      first prompt, the second with the second. */
  lemma DispatchersAgree(rc: RoutedConfig, dc: DirectConfig, readFile: string -> string, sha256: Hasher,
                         rows: seq<string>, content: string, userId: string, clientRequestId: string,
                         send: LibraryCall<Outbound, Reply>, llm: LibraryCall<LlmCall, string>)
    requires rc.endpoint1 != "" && rc.endpoint2 != ""
    requires dc.prompt1File != "" && dc.prompt2File != "" && dc.modelName != ""
    ensures var s := ScoreModel(rc, sha256, rows, userId, clientRequestId, send);
            var a := DirectSummary(dc, readFile, sha256, content, userId, llm);
            && s.sent.Some? && a.call.Some?
            && (AbGroup(sha256, userId) == 0 ==>
                  s.sent.value.url == rc.endpoint1 && a.call.value.system == LoadPrompt(readFile, dc.prompt1File))
            && (AbGroup(sha256, userId) == 1 ==>
                  s.sent.value.url == rc.endpoint2 && a.call.value.system == LoadPrompt(readFile, dc.prompt2File))
  {
  }
}
