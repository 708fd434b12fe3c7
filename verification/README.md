# A/B-tested summarization service, modelled in Dafny

The service takes summarization requests over HTTP and buckets each user into one of
two experiment arms. It buckets by the parity of the first eight hex digits of the
SHA-256 digest of the user id. The request then goes to that arm's backend. In routed
mode the backend is a model-serving endpoint, which gets the content as a one-column
`content` frame. In direct mode it is a language model called with the arm's prompt.
A second endpoint records feedback rows about earlier requests. The backends are two
MLflow model wrappers. Both join the `content` rows with newlines and hand a
language model either the first line of a prompt file or a registered prompt
template. The template is cleaned and registered by a small script.

The model is pure Dafny functions over immutable data:

- `Outcomes`: the exceptions the Python code raises (`HTTPException`, `ValueError`,
  `KeyError`, `IndexError`, `TypeError`) and the exceptions it lets escape from
  `requests` and the OpenAI client, as a `Result` datatype.
- `Text`: Python's `str.split("\n")`, `"\n".join`, `str.strip`, `readline()` and
  iteration over the lines of a text file.
- `Hex`, `Utf8`: `int(s, 16)` on a non-empty string of lower-case hex digits, and `str.encode("utf-8")` as
  RFC 3629 specifies it.
- `Bucketing`: `get_ab_test_group`.
- `Dispatch`: `load_prompt`, `score_model` and `direct_summary`.
- `FeedbackStore`: `submit_feedback`.
- `Api`: the handlers of main.py.
- `ModelIO`, `PromptWrapper`, `TemplateWrapper`: the two `OpenAIWrapper` models.
- `PromptRegistry`: the template cleaning and the registered name of register_prompts.py.

Everything outside the program is a parameter of the function that uses it:

- SHA-256 is `sha256: Hasher`, any function from bytes to a 64-digit lower-case
  hex string.
- The serving endpoint is `send`. It answers with a reply or raises one of the
  library's own exceptions (a connection error, say), never an `HTTPException` or one
  of the errors the code raises itself; such an exception escapes the caller unchanged.
- The language model is `llm`. It answers with text or raises the same way.
- The file system is `readFile`.
- MLflow's template filling is `fill`.
- The clock is `now`.
- The feedback store is `store`: it succeeds, fails before the INSERT (no connection,
  say), or fails after it (while closing the cursor or the connection).

Where an outbound call happens, in the dispatchers, the summarization handler and the
wrappers' `predict`, the outcome records it (`sent`, `call`), so the contracts can say
when a call is made and what it carries.

Where a reader might expect otherwise, the model follows the code:

- `get_ab_test_group` does not reject an empty user id. The handlers reject it first.
- The user id of a feedback row is the one in the request body, not an authenticated id.
- There is no `/summarization_direct` route. `direct_summary` is modelled, but no
  handler calls it.
- Direct mode returns the model's `output_text` unchanged.
- `get_ab_test_group` returns the integer 0 or 1, not the group label its docstring names.

## Model

| member | source | states |
|---|---|---|
| Bucketing.GetAbTestGroup | tools.py:31-52 | Hashing the UTF-8 bytes, parsing the first eight hex digits and taking the remainder mod 2 gives 0 or 1, the same group as `AbGroup`; the group is 0 exactly when the eighth digit is one of 0,2,4,6,8,a,c,e |
| Bucketing.AbGroup | tools.py:43-52 | The group is 0 or 1, determined only by the parity of the eighth hex digit of the digest of the user id's UTF-8 bytes |
| Bucketing.PrefixValue | tools.py:49 | The value of the first eight hex digits is the hex value of that prefix and fits in an unsigned 32-bit number |
| Bucketing.EveryPrefixValueOccurs | tools.py:46-49 | The 32-bit bound is tight: every number below 2^32 is the prefix value of some digest |
| Bucketing.GroupOfDigest | tools.py:49-52 | The group of a digest is 0 or 1 and equals the parity of its eighth hex digit |
| Bucketing.SamePrefixSameGroup | tools.py:45-49 | Digests that agree in their first eight digits land in the same group |
| Bucketing.GroupZeroIffEvenDigit | tools.py:51-52 | Group 0 holds exactly the digests whose eighth digit is even, in both directions |
| Bucketing.SameUserSameGroup | tools.py:41-43 | Equal UTF-8 encodings come only from equal user ids, and such ids get the same group |
| Hex.Parse | tools.py:49 | The digit-by-digit reading of `int(s, 16)` computes the positional hex value of the whole non-empty string |
| Hex.ValueOfToHex | tools.py:49 | Reading back a number written with enough hex digits gives the number |
| Hex.ToHexOfValue | tools.py:49 | Writing the value of a hex string with its own width gives the string back |
| Hex.ValueParity | tools.py:52 | The parity of a hex number is the parity of its last digit |
| Utf8.Encode | tools.py:43 | Each character becomes one to four bytes |
| Utf8.EncodeChar | tools.py:43 | One character becomes its shortest form: one byte below U+0080, two below U+0800, three below U+10000 and four above, a lead byte announcing that length followed by continuation bytes |
| Utf8.DecodeEncodeChar | tools.py:43 | Decoding a character's bytes gives back its code point |
| Utf8.EncodeInjective | tools.py:43 | Distinct strings have distinct encodings, so the bytes hashed identify the user id |
| Utf8.EncodeAscii | tools.py:43 | An ASCII user id is encoded byte for byte |
| Text.FirstLine | tools.py:55-60 | `readline()` returns a prefix of the file with no newline before its end, ending in a newline exactly when the file holds one, and the whole file otherwise |
| Text.FirstLineIsFirstFileLine | tools.py:57-58 | `readline()` returns the first line file iteration yields |
| Text.FirstLineIdempotent | tools.py:55-60 | Loading a prompt from a file that holds only the loaded prompt gives the same prompt |
| Dispatch.DirectSummary | tools.py:63-110 | A missing prompt file, then a missing model name, is a 500 with no model call; otherwise exactly one call is made with the configured model, the group's prompt as system message and the content as user message, and its text, or its exception unchanged, is the result; every `HTTPException` is raised before the call |
| Dispatch.ScoreModel | tools.py:113-160 | A missing endpoint is a 500 with no request; otherwise exactly one request goes to the group's endpoint, carrying the request id and a content frame whose column is the rows; a failed request escapes unchanged, and a reply decides the result; every `HTTPException` comes from the endpoint check or from reading the reply |
| Dispatch.LoadPrompt | tools.py:55-60 | The prompt is the file's first line: a prefix of the file with no newline before its end, ending in one exactly when the file holds one, and the whole file when it holds none |
| Dispatch.Pick | tools.py:82-86 | Group 0 gets the first of the two configured values, any other group the second |
| Dispatch.ReadReply | tools.py:145-158 | A status other than 200 passes through with the body as detail, a reply without predictions is a 500, an empty prediction list raises `IndexError`, and otherwise the first prediction is the result |
| Dispatch.ReplyGuardIsStatusCheck | tools.py:147 | The `not response or status != 200` guard fails exactly when the status is not 200 |
| Dispatch.SplitFrame | tools.py:134-137 | The split-orient frame has the column `content`, index 0..n-1 and one one-cell row per content row |
| Dispatch.ContentColumnOfSplitFrame | tools.py:134-137 | The serving side reads back exactly the rows that were sent, in order |
| Dispatch.DispatchersAgree | tools.py:82-127 | With both modes configured, a user of group 0 gets the first endpoint and the first prompt, one of group 1 the second of each |
| FeedbackStore.SubmitFeedback | tools.py:163-189 | Unless the store fails before the INSERT, exactly one row is appended (the body's request id, rate and comment, the user id argument, the clock) and nothing else changes; success is answered only when the store succeeds, and any store failure becomes a 500 with its message, even one after the row was stored |
| FeedbackStore.FailureAfterInsertKeepsRow | tools.py:165-189 | A store failure before and one after the INSERT give the same 500, yet only the later one leaves the row stored |
| Api.ValidateFeedback | main.py:47-54 | A feedback body is accepted exactly when request id and user id are non-empty and the rate is in 1..5; otherwise the first failing check in source order gives its 400 |
| Api.RateBoundaries | main.py:53-54 | Rates 0 and 6 are rejected with 400 and rates 1 and 5 are accepted |
| Api.HandleFeedbackAsWritten | main.py:57-59 | As written, a valid body reaches the one-argument `submit_feedback` call and fails with a `TypeError`; the table never changes |
| Api.FeedbackAsWrittenNeverStores | main.py:57-59 | As written, no request to the feedback endpoint stores a row or succeeds |
| Api.FeedbackAsWrittenCounterexample | main.py:58 | The valid body user "u1", request "abc123", rate 5, comment "great" is refused by the as-written handler |
| Api.HandleFeedback | main.py:44-59 | With the user id passed on, a valid body is answered with its request id and status 200 exactly when the store succeeds; it is stored as exactly one new row unless the store fails before the INSERT; invalid bodies leave the table unchanged |
| Api.FeedbackRoundTrip | main.py:57-59 | Feedback "abc123"/"u1"/5/"great" produces exactly one row with those four values and the clock reading |
| Api.ValidateSummary | main.py:65-72 | A summarization body is accepted exactly when request id, content and user id are non-empty, checked in that order |
| Api.HandleSummary | main.py:62-78 | Invalid bodies send nothing; a valid one goes to the endpoint of the requesting user's group (the first for group 0, the second otherwise) as a content frame with one row per line of the content, whose rows join back to the content, with the request id echoed in payload and response; a valid body with an endpoint missing is the 500 of `score_model`; a failed request escapes unchanged, a success means the reply read to that summary, and every `HTTPException` comes from validation, the endpoint check or the reply |
| Api.SummaryContentRoundTrip | main.py:74-76 | The rows sent for a request are joined by the model wrapper into exactly the submitted content |
| Text.Split | main.py:74 | `split("\n")` gives one more piece than there are newlines, and no piece holds a newline |
| Text.JoinSplit | databricks/models/summarization_agent/log_model_with_prompt.py:22 | Joining the pieces of a split with newlines gives the text back |
| Text.SplitJoin | databricks/models/summarization_agent/log_model_with_prompt.py:22 | Splitting the join of one or more newline-free rows gives the rows back |
| Text.JoinEmpty | databricks/models/summarization_agent/log_model_with_prompt.py:22-25 | The join is empty exactly for no rows or a single empty row |
| ModelIO.JoinedContent | databricks/models/summarization_agent/log_model_with_prompt.py:22-28 | Accepted content is the non-empty newline join of the rows; no rows, or one empty row, is the `ValueError` |
| ModelIO.JoinedContentOfSplit | databricks/models/summarization_agent/log_model_with_prompt.py:22-25 | The rows of a split content are joined back into that content; only the empty content is rejected |
| ModelIO.SplitJoinedContent | databricks/models/summarization_agent/log_model_with_prompt.py:22 | Accepted newline-free rows are recovered by splitting the joined content |
| ModelIO.FormatOutputs | databricks/models/summarization_agent/log_model_with_prompt.py:30-37 | A list passes unchanged, a string becomes a one-element list, anything else is a `ValueError`; every accepted output is a list |
| ModelIO.FormatOutputsIdempotent | databricks/models/summarization_agent/log_model_with_prompt.py:30-37 | Normalising an already normalised output changes nothing |
| PromptWrapper.LoadContext | databricks/models/summarization_agent/log_model_with_prompt.py:12-19 | With a `prompt` artifact the prompt is the artifact file's first line: a prefix with no newline before its end, ending in one exactly when the file holds one, the whole file when it holds none; without the artifact, opening `None` raises `TypeError` |
| PromptWrapper.LoadContextKeepsFirstFileLine | databricks/models/summarization_agent/log_model_with_prompt.py:12-19 | For a non-empty prompt file the loaded prompt is the first line file iteration yields |
| PromptWrapper.FormatInputs | databricks/models/summarization_agent/log_model_with_prompt.py:21-28 | The input is the newline join of the content rows, rejected exactly when it is empty |
| ModelIO.ConfiguredModel | databricks/models/summarization_agent/log_model_with_prompt.py:44 | The model is the configured `openai_model` when present, gpt-4o-mini otherwise |
| PromptWrapper.Predict | databricks/models/summarization_agent/log_model_with_prompt.py:40-61 | The call is made exactly when the joined content is non-empty; empty content is the `ValueError` with no call; the one call carries the configured model (default gpt-4o-mini), the loaded prompt and the joined content, and its text comes back as a one-element list, or its exception escapes unchanged |
| TemplateWrapper.LoadContext | databricks/models/summarization_agent/v1/log_model.py:12-25 | Missing uc_schema, prompt_name or prompt_version raise `KeyError` in that order; num_sentences (20 when absent) is accepted exactly when it is a positive integer, `True` included, and is kept as given |
| TemplateWrapper.NumSentencesSetting | databricks/models/summarization_agent/v1/log_model.py:17 | The sentence count is the configured `num_sentences` when present, 20 otherwise |
| TemplateWrapper.NumSentencesBoundaries | databricks/models/summarization_agent/v1/log_model.py:17-20 | The default 20, 1 and `True` are accepted and kept; 0 and the string "20" are rejected |
| TemplateWrapper.FormatInputs | databricks/models/summarization_agent/v1/log_model.py:27-41 | Empty content is rejected before the template is filled; otherwise the template gets the joined content and the stored sentence count |
| TemplateWrapper.Predict | databricks/models/summarization_agent/v1/log_model.py:53-74 | The call is made exactly when the content is non-empty; empty content is the `ValueError` with no call; the one call sends the filled template as user message under the fixed system message with the configured model, and the reply comes back as a one-element list, or its exception escapes unchanged |
| Text.FileLines | databricks/register_prompts.py:46-47 | File iteration yields no lines for an empty file, otherwise non-empty lines with no newline before their end, every line but the last ending in a newline |
| Text.ConcatFileLines | databricks/register_prompts.py:46-47 | The lines of a file concatenate back to its text |
| Text.Strip | databricks/register_prompts.py:51 | `strip()` keeps a contiguous middle of the line that neither starts nor ends with whitespace and drops only whitespace around it |
| Text.StripIdempotent | databricks/register_prompts.py:51 | Stripping a stripped line changes nothing |
| Text.StripRemovesLineEnd | databricks/register_prompts.py:47-51 | A stripped file line holds no newline |
| PromptRegistry.BuildTemplate | databricks/register_prompts.py:45-51 | The loop builds the cleaned template; for file lines, splitting it on newlines gives the stripped non-comment lines in order, then an empty tail, with one newline per kept line |
| PromptRegistry.SplitClean | databricks/register_prompts.py:45-51 | The template of file lines splits into the stripped kept lines, in order, followed by one empty piece |
| PromptRegistry.TemplateOfFile | databricks/register_prompts.py:45-51 | For every prompt file text, the template splits into the file's stripped non-comment lines plus an empty tail and holds one newline per such line |
| PromptRegistry.CleanNewlines | databricks/register_prompts.py:51 | The template holds exactly one newline per kept line |
| PromptRegistry.CleanEmpty | databricks/register_prompts.py:47-51 | The template is empty exactly when every line is a comment |
| PromptRegistry.KeptConcat | databricks/register_prompts.py:46-51 | Kept lines keep their original relative order: the kept lines of an earlier part of the file precede those of a later part |
| PromptRegistry.NonCommentKept | databricks/register_prompts.py:48-51 | Every line that does not start with `#` is kept |
| PromptRegistry.CommentTestBeforeStrip | databricks/register_prompts.py:48-51 | The comment test looks at the raw line: an indented `#` line is kept and stripped, a `#` line is dropped |
| PromptRegistry.RegisteredName | databricks/register_prompts.py:57 | The registered name is the schema, one dot, then the prompt name |
| PromptRegistry.RegisteredNameInjective | databricks/register_prompts.py:57 | `uc_schema.prompt_name` names are unambiguous when prompt names have no dot |

## Left out

- Authentication (`get_current_user_id`, tools.py:12-28) is not modelled. It is a call
  into the Clerk SDK, and the handlers of main.py do not use it.
- SHA-256 is a parameter. Its internals are a library's, and bucketing depends only on
  the digest being 64 lower-case hex digits.
- The HTTP request itself, the JSON encoding of the payload and of the reply, the bearer
  header and the OpenAI client are external I/O. They are reduced to the parameters
  `send` and `llm`, each of which either answers or raises its own exception. A reply
  body that is not JSON, or whose `predictions` is not a list of strings, is outside
  the model. Which library exceptions occur, and the bare 500 FastAPI answers when one
  escapes a handler, are not modelled: the handler's outcome is the exception itself.
- Reading `experiment.config.json` is not modelled. The configuration arrives as
  `RoutedConfig` or `DirectConfig`, and a falsy value is modelled as "". A missing key,
  which raises `KeyError`, is not modelled.
- `load_prompt` on a missing file is not modelled: the `FileNotFoundError` is a file
  system matter. File text is taken after Python's universal-newline translation.
- The `if not data_json` check (tools.py:140) is not modelled. `json.dumps` never
  returns an empty string, so the branch is dead.
- The `if not feedback` / `if not summary` checks of main.py are not modelled. A
  pydantic model instance is always truthy.
- The SQL connection and the INSERT are not modelled; the feedback table is a sequence
  of rows. Where a store failure happens, and its message, are the parameter `store`,
  and the log `print` is dropped.
- The pandas frame is reduced to its `split` dictionary of rows. `model_input["content"]`
  is reduced to the list of row strings.
- `mlflow.genai.load_prompt`, `register_prompt`, the prompt URI, the commit message and
  the tags are not modelled. Template filling is the parameter `fill`.
- `mlflow.pyfunc.log_model`, the signature inference, the argument parsing of the
  script and all `__main__` blocks are not modelled. They are packaging, not behaviour
  of the service.
- Dispatch.ScoreModel: a request that never returns is not modelled. `requests.request` is
  called without a timeout, so it can block forever; the model has every request either
  answer or fail.
- Dispatch.DirectSummary: a model call that never returns is not modelled. The OpenAI
  client call has no timeout set by the code; the model has every call either answer
  or fail.
- Utf8.Encode: surrogate code points are not handled, because a Dafny `char` is always
  a Unicode scalar value and `str.encode` would reject them anyway.
- The `root` GET endpoint (main.py:39-41) is not modelled. It returns a constant.

## Findings

| source | as written | input that shows it | evidently intended | confidence | as-written member | corrected member |
|---|---|---|---|---|---|---|
| main.py:58 | `submit_feedback(feedback_data)` passes one argument to a function declared at tools.py:163 with two, so every valid feedback raises `TypeError` and nothing is stored | body `{"user_id": "u1", "client_request_id": "abc123", "rate": 5, "comment": "great"}` | `submit_feedback(feedback_data, feedback.user_id)`: one row stored, answered with status 200 | high; not executed | Api.HandleFeedbackAsWritten | Api.HandleFeedback |
