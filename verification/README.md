# LLM automation test: dialogue engine, driver post-processing and configuration checks

This project models, in Dafny, the core of a tool that tests chat models. A run talks to a
*target* model (Qwen or DeepSeek, through an OpenAI-compatible API). A *driver* model (Gemini)
judges after each round whether the target has given a final, justified purchase recommendation.
While it has not, the driver writes the next user question.

The model covers three parts of the repository:

- **`report/report.go`, `Run`** (`report.dfy`, module `Report`). A `TestResult` class holds the
  fields `Run` updates in place. `Run` is an imperative method whose round loop is `Converse`.
  - Each round calls the target with the rolling transcript and appends a `Turn`.
  - It then rebuilds the judge's `{user, ai}` history with a loop (`BuildHistory`) and asks the
    judge.
  - Unless the run stops, it generates the next question (falling back to a fixed question) and
    extends the transcript.
  - The four ways out are `Done`, `Aborted` (the target failed), `ProcessExit` (the judge call
    failed; the source calls `os.Exit(-1)`) and `Exhausted`.
  - After the loop, an unsuccessful run reports `MaxRounds` rounds.
- **`Run`'s specification.** The loop is proved against `Rounds`/`Play`, the run written as a
  recursive function.
  - `Rounds` is stated for any `Oracle`: a target, a judge of the turn history, and a next-question
    function. `OracleOf` is the oracle the real collaborators and the driver post-processing give.
  - `PlayEnded` proves that every run ends as the predicate `Ended` describes. The recorded turns
    form a `Trace`: each turn is numbered by its round and carries the pending input. It holds
    what the target answered to the transcript of the earlier turns plus that input, and it was
    recorded only after the judge rejected the earlier turns.
  - The exit matches the last judgment or the target failure.
- **`drivers/gemini.go`, the post-processing** (`drivers.dfy`, module `Drivers`, with Go's
  `strings` functions in `text.dfy`, module `Text`):
  - candidate selection;
  - white-space and quote trimming of the generated question;
  - the judge transcript;
  - fence stripping of the judge's reply, and the rule that an unparsable reply counts as "not
    complete" rather than as an error.
- **`config/config.go`** (`config.dfy`, module `Config`): the three checks, with the order in which
  they report failures, and `Load`'s rewrite of the Gemini endpoint after validation. `Load` is a
  method on a `Loader` object whose `config` field it updates in place.

The outside services are functions passed in (`Report.Collaborators`):

- the target call;
- the judge call: filling the judging prompt and calling Gemini;
- the question call: filling the question prompt and calling Gemini;
- the JSON decoder of the verdict, modelled as a partial parser.

The three calls each return a `Result`, so a transport failure or an expired deadline is a `Failure`. The decoder returns an `Option`, with `None` for text that does not decode.

On success the recommendation is the last reply exactly as the target gave it, so it may be empty
(report/report.go:87).

## Model

| member | source | states |
|---|---|---|
| Report.Run | report/report.go:33-119 | The turns and exit are those of `Play`. `success` holds exactly on `Done`. On `Done`, `totalRounds` is the number of recorded turns, `finalRecommend` is the last turn's reply and `geminiJudgeLog` is the judge's reason. On any other exit that returns, `totalRounds` is `MaxRounds` and the text fields stay empty. After a judge failure the fix-up does not run. |
| Report.Converse | report/report.go:44-112 | The round loop records exactly the turns and exit of `Rounds` from the initial prompt. It sets the success fields only when the judge says complete and leaves them untouched otherwise. |
| Report.Assess | report/report.go:74-102 | The verdict is the judge's verdict on every recorded turn, in order. When the verdict is a rejection without error, the next input is generated from the last turn's input and reply only. |
| Report.BuildHistory | report/report.go:74-80 | The loop builds one `{user, ai}` pair per recorded turn, in order. |
| Report.PlayEnded | report/report.go:49-112 | Every run ends as `Ended` describes: the turns form a `Trace` of at most `MaxRounds` turns. `Done` follows a complete verdict on the last turn, and `ProcessExit` a failed judge call on it. `Aborted` follows a target failure on the next transcript while the run was open and below `MaxRounds`. `Exhausted` follows `MaxRounds` turns with the run still open. |
| Report.RoundsEnded | report/report.go:49-112 | The same holds from any state the loop can reach, that is, any state satisfying `Running`. |
| Report.RecordTurn | report/report.go:68-72 | Recording the turn the target just answered keeps `Trace`. The rolling transcript gains that turn's input, then its reply. |
| Report.TraceByTurn | report/report.go:49-109 | A sequence of turns is a `Trace` if and only if every turn `i` has the following four properties. It has round `i + 1`. It carries the input pending after the earlier turns. It holds the target's answer to their transcript followed by that input. It follows a judge rejection of the earlier turns. |
| Report.PrefixDetermines | report/report.go:74-80 | The transcript, the judge history, openness, the pending input and `Trace` for the first `n` turns depend only on those turns. |
| Report.DialogueAlternates | report/report.go:106-109 | In the transcript, message `2i` is the user message with turn `i`'s input, and message `2i+1` is the assistant message with turn `i`'s reply. Roles therefore alternate, starting with the user. |
| Report.PlayShape | report/report.go:49-72 | A run records at most `MaxRounds` turns, numbered 1, 2, … in order. It is exhausted only after all of them and aborted only before that. |
| Report.UnknownModelAborts | report/report.go:54-65 | A model name that is neither the Qwen nor the DeepSeek model fails in round 1 with "未知模型: " and the name, and nothing is recorded. |
| Report.CallTargetPrecedence | report/report.go:54-60 | A name equal to the Qwen model calls the target with the Qwen key and URL, even when the DeepSeek model has the same name. Any other name equal to the DeepSeek model uses the DeepSeek key and URL. Every other name fails with "未知模型: " and the name, without a call. |
| Report.NextInputShape | report/report.go:97-102 | The question generator is asked about the last input and reply only. When generation fails, the next input is the fixed fallback question. Otherwise it is the cleaned reply: a contiguous part of the generated reply that neither starts nor ends with a quote character. |
| Report.ValidConfigRunsARound | config/config.go:47-49 | A configuration that passes `CheckConfig` allows at least one round. |
| Report.OracleOfRealises | report/report.go:54-102 | The oracle built from the collaborators answers exactly as the target selection, the judge post-processing and next-question generation do. |
| Report.TestResult.constructor | report/report.go:37-42 | A new result has the model name, no turns, no success, zero rounds and empty text fields. |
| Drivers.FirstCandidateText | drivers/gemini.go:88-91 | The call fails with "empty response" exactly when there is no candidate or the first has no part. Otherwise it returns the text of the first part of the first candidate. |
| Drivers.GenerateNextUserQuestion | drivers/gemini.go:114-120 | A transport error is passed on unchanged. A reply is returned cleaned. |
| Drivers.CleanQuestionSpec | drivers/gemini.go:118-119 | The cleaned question is a contiguous part of the raw reply. It neither starts nor ends with one of `"“”‘’`. Trimming the quotes again changes nothing. |
| Drivers.TranscriptAppend | drivers/gemini.go:125-128 | The transcript of a concatenation is the concatenation of the transcripts: each exchange contributes its own entry, in order. |
| Drivers.RenderTranscript | drivers/gemini.go:125-128 | The builder loop produces the transcript. |
| Drivers.UnfenceRemovesOnlyFences | drivers/gemini.go:153-154 | At most one leading "```json" and at most one trailing "```" are removed, and nothing else. A leading fence is always removed, and so is a trailing fence left after it. Text without fences passes unchanged. |
| Drivers.StripFenceRemovesOnlyFences | drivers/gemini.go:152-154 | After white-space trimming, the stripped reply is the trimmed text with at most those two fences removed. |
| Drivers.DecisionFromReply | drivers/gemini.go:148-160 | The verdict is an error exactly on a transport error, and then it is `(false, "", err)`. An unparsable stripped reply gives `(false, "格式错误: " + stripped, no error)`. A parsed payload gives its own `(decision_complete, reason)` with no error. |
| Drivers.CompleteOnlyFromPayload | drivers/gemini.go:156-160 | "Complete" only comes from a payload that parsed and said so. An unparsable reply is never complete and never an error. |
| Drivers.CheckIfDecisionComplete | drivers/gemini.go:124-161 | The driver renders the conversation, asks the judge, and returns the verdict `DecisionFromReply` gives for that answer. |
| Text.TrimSpec | drivers/gemini.go:118-119 | `strings.Trim`/`TrimSpace` cut only characters of the set from the two ends, and the result neither starts nor ends with one. |
| Text.TrimUnique | drivers/gemini.go:118-119 | Those two properties determine the trimmed string. |
| Text.TrimIdempotent | drivers/gemini.go:119 | Trimming twice is trimming once. |
| Text.TrimPrefixSplit | drivers/gemini.go:153 | `strings.TrimPrefix` splits off the prefix when present and otherwise returns the text unchanged. |
| Text.TrimSuffixSplit | drivers/gemini.go:154 | `strings.TrimSuffix` splits off the suffix when present and otherwise returns the text unchanged. |
| Config.CheckTargetAIConfig | config/config.go:23-28 | It passes if and only if the key, the endpoint and the model name are all non-empty, and it fails with the fixed message. |
| Config.CheckDriverAIConfig | config/config.go:30-35 | It passes if and only if the key and the model name are non-empty. An empty endpoint is accepted. |
| Config.CheckConfig | config/config.go:37-54 | It passes if and only if DeepSeek and Qwen pass the target check, Gemini passes the driver check, `MaxRounds > 0` and `Timeout > 0`. A configuration that passes has at least one round. |
| Config.CheckConfigReportsFirstProblem | config/config.go:37-54 | The reported error is the first problem in the order DeepSeek, Qwen, Gemini, MaxRounds, Timeout, with the component's name as prefix. |
| Config.TargetCheckIsStricter | config/config.go:23-35 | The target check implies the driver check. A configuration with an empty endpoint can pass only the driver check. |
| Config.GeminiEndpoint | config/config.go:62 | The URL is the fixed prefix, the model, ":generateContent?key=" and the key, in that order. |
| Config.WithGeminiEndpoint | config/config.go:62 | Only the Gemini endpoint changes. |
| Config.EndpointKeepsConfigValid | config/config.go:56-64 | The rewrite keeps a valid configuration valid, with at least one round. |
| Config.Loader.Load | config/config.go:56-65 | On a failed check, `Load` returns the error and leaves the configuration alone. Otherwise it rewrites only the Gemini endpoint and returns the configuration, which still passes the check. |

## Left out

- The HTTP exchanges are the collaborator functions:
  - `callGeminiRaw`'s request and response handling before candidate selection (drivers/gemini.go:57-87);
  - the proxy client (drivers/gemini.go:44-55);
  - all of targets/openai_compat.go.
- Decoding the Gemini response body is left out. `Drivers.FirstCandidateText` starts from the decoded response. The judge and question collaborators return the resulting `Result<string>` directly, so the run does not go through `FirstCandidateText`; it stands on its own as the last step of `callGeminiRaw`.
- The prompt texts (drivers/gemini.go:96-113, 129-146) are natural-language constants. They sit inside the judge and question collaborators.
- The JSON decoding of the verdict is an abstract partial parser (`parseDecision`).
- Wall-clock behaviour is not modelled. This covers the context deadline `Timeout * MaxRounds`, the 300 ms sleep between rounds, and `StartTime`/`EndTime`. An expired deadline shows up only as a collaborator `Failure`.
- Console output (`fmt.Printf`) is not modelled.
- `SaveReport` and `SaveMarkdownReport` are file I/O and formatting and are not modelled.
- config/cfgload.go is not part of this model: file loading, default-file creation and reloading on change. The `Config.Loader` constructor stands for the configuration it loads.
- main.go is not part of this model.
- `Report.Run`: `os.Exit(-1)` after a failed judge call becomes the exit `ProcessExit`, and `Run` returns. Nothing after it runs, and the fields it leaves are never observed.
- `Report.Run`: the collaborators are deterministic functions. A service that answers the same request differently on two calls within one run is not modelled.
- `Config.Loader.Load` returns the configuration as a value, not a pointer to the shared record. A nil result is a `Failure`.
- Strings are sequences of Unicode scalar values, not UTF-8 bytes. Invalid UTF-8 input is not modelled.
- The configuration's `timeout` is a whole number of nanoseconds. Integers are unbounded, and no counter in the core comes near Go's 64-bit limit.
