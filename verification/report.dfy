/** The multi-round dialogue engine (report/report.go): one run against a
    target model, alternating a target reply, a completion judgment and,
    when the conversation is not complete, a generated next question. */
module Report {
  import opened Wrappers
  import opened Targets
  import opened Drivers
  import Text
  import Config

  datatype Turn = Turn(round: int, userInput: string, aiReply: string)

  /** The outside services a run talks to, each a total function of what it
      is sent:
      - `callTarget(apiKey, baseURL, model, messages)` is `CallOpenAICompat`;
      - `askJudge(transcript)` fills the judging prompt and calls Gemini;
      - `parseDecision(text)` is the JSON decoding of the verdict payload;
      - `askQuestion(history)` fills the question prompt and calls Gemini.
      A deadline expiry or any transport failure is a `Failure` result. */
  datatype Collaborators = Collaborators(
    callTarget: (string, string, string, seq<Message>) -> Result<string>,
    askJudge: string -> Result<string>,
    parseDecision: string -> Option<Decision>,
    askQuestion: string -> Result<string>)

  /** How a run ends. `ProcessExit` is the source's `os.Exit(-1)` after a
      failed judge call: nothing after it runs. */
  datatype Exit = Done(reason: string) | Aborted(error: string) | ProcessExit(error: string) | Exhausted

  const FallbackQuestion := "请继续提供更合适的推荐方式。"

  /** Mutable record of one run; `StartTime` and `EndTime` are not modelled. */
  class TestResult {
    var modelName: string
    var totalRounds: int
    var conversation: seq<Turn>
    var finalRecommend: string
    var success: bool
    var geminiJudgeLog: string

    constructor (modelName: string)
      ensures this.modelName == modelName && totalRounds == 0 && conversation == []
      ensures finalRecommend == "" && !success && geminiJudgeLog == ""
    {
      this.modelName := modelName;
      totalRounds := 0;
      conversation := [];
      finalRecommend := "";
      success := false;
      geminiJudgeLog := "";
    }
  }

  // ---- What a round consults ----

  /** The target call: the model name selects the Qwen, then the DeepSeek
      credentials; any other name fails without calling anything. */
  function CallTarget(cfg: Config.Config, modelName: string, env: Collaborators, messages: seq<Message>): Result<string> {
    if modelName == cfg.qwen.model then env.callTarget(cfg.qwen.apiKey, cfg.qwen.baseURL, modelName, messages)
    else if modelName == cfg.deepSeek.model then env.callTarget(cfg.deepSeek.apiKey, cfg.deepSeek.baseURL, modelName, messages)
    else Failure("未知模型: " + modelName)
  }

  /** The Qwen credentials win whenever the name is the Qwen model, even if
      the DeepSeek model has the same name; the DeepSeek credentials are used
      only for a name that is not the Qwen model; any other name is refused
      with the unknown-model error and no call. */
  lemma CallTargetPrecedence(cfg: Config.Config, modelName: string, env: Collaborators, messages: seq<Message>)
    ensures modelName == cfg.qwen.model ==>
      CallTarget(cfg, modelName, env, messages) == env.callTarget(cfg.qwen.apiKey, cfg.qwen.baseURL, modelName, messages)
    ensures modelName != cfg.qwen.model && modelName == cfg.deepSeek.model ==>
      CallTarget(cfg, modelName, env, messages) == env.callTarget(cfg.deepSeek.apiKey, cfg.deepSeek.baseURL, modelName, messages)
    ensures modelName != cfg.qwen.model && modelName != cfg.deepSeek.model ==>
      CallTarget(cfg, modelName, env, messages) == Failure("未知模型: " + modelName)
  {
  }

  /** The `{user, ai}` pairs handed to the judge after the first `n` turns
      of `conv`, one per turn and in order. */
  function History(conv: seq<Turn>, n: nat): (h: seq<Exchange>)
    requires n <= |conv|
    ensures |h| == n
  {
    seq(n, i requires 0 <= i < n => Exchange(conv[i].userInput, conv[i].aiReply))
  }

  /** The judge's verdict on the exchanges `h`. */
  function Judge(env: Collaborators, h: seq<Exchange>): Judgment {
    DecisionFromReply(env.askJudge(Transcript(h)), env.parseDecision)
  }

  predicate Rejected(j: Judgment) {
    !j.complete && j.err.None?
  }

  /** The compact history handed to the question generator. */
  function QuestionHistory(userInput: string, aiReply: string): string {
    "用户: " + userInput + "\nAI: " + aiReply
  }

  /** The user input of the next round: the generated question, or the
      fixed fallback when generation fails. */
  function NextInput(env: Collaborators, userInput: string, aiReply: string): string
  {
    match GenerateNextUserQuestion(QuestionHistory(userInput, aiReply), env.askQuestion)
    case Failure(_) => FallbackQuestion
    case Success(q) => q
  }

  /** The next input is never an error: the question generator is asked
      about the last input and reply only; the next input is the fallback when
      generation fails, and otherwise the cleaned reply, a contiguous part of
      it with no quote character at either end. */
  lemma {:induction false} NextInputShape(env: Collaborators, userInput: string, aiReply: string)
    ensures var asked := env.askQuestion(QuestionHistory(userInput, aiReply));
      var q := NextInput(env, userInput, aiReply);
      && (asked.Failure? ==> q == FallbackQuestion)
      && (asked.Success? ==> q == CleanQuestion(asked.value))
      && (asked.Success? ==>
            (exists i, j :: 0 <= i <= j <= |asked.value| && q == asked.value[i..j])
            && (q == [] || (!Text.In(q[0], Quotes) && !Text.In(q[|q| - 1], Quotes))))
  {
    var asked := env.askQuestion(QuestionHistory(userInput, aiReply));
    if asked.Success? {
      CleanQuestionSpec(asked.value);
    }
  }

  /** The three things a round consults, as functions of what it hands
      over: the target (the rolling transcript), the judge (every exchange
      so far) and the question generator (the last input and reply). The
      run below is stated for any such triple; `OracleOf` is the one `Run`
      uses. */
  datatype Oracle = Oracle(
    target: seq<Message> -> Result<string>,
    judge: seq<Exchange> -> Judgment,
    next: (string, string) -> string)

  function OracleOf(cfg: Config.Config, modelName: string, env: Collaborators): Oracle {
    Oracle(ms => CallTarget(cfg, modelName, env, ms), h => Judge(env, h), (u, a) => NextInput(env, u, a))
  }

  /** `o` answers as the target of `modelName` does. */
  ghost predicate TargetIs(o: Oracle, cfg: Config.Config, modelName: string, env: Collaborators) {
    forall ms {:trigger CallTarget(cfg, modelName, env, ms)} :: o.target(ms) == CallTarget(cfg, modelName, env, ms)
  }

  /** `o` judges and generates questions as the Gemini driver does. */
  ghost predicate DriverIs(o: Oracle, env: Collaborators) {
    && (forall h {:trigger Judge(env, h)} :: o.judge(h) == Judge(env, h))
    && (forall u, a {:trigger NextInput(env, u, a)} :: o.next(u, a) == NextInput(env, u, a))
  }

  lemma OracleOfRealises(cfg: Config.Config, modelName: string, env: Collaborators)
    ensures TargetIs(OracleOf(cfg, modelName, env), cfg, modelName, env)
    ensures DriverIs(OracleOf(cfg, modelName, env), env)
  {
  }

  // ---- Specification of a run ----

  /** The rolling transcript after the first `n` turns of `conv`: each
      turn's user input, then its reply. */
  function Dialogue(conv: seq<Turn>, n: nat): (ms: seq<Message>)
    requires n <= |conv|
    ensures |ms| == 2 * n
    decreases n
  {
    if n == 0 then []
    else Dialogue(conv, n - 1) + [Message(User, conv[n - 1].userInput), Message(Assistant, conv[n - 1].aiReply)]
  }

  /** Roles alternate, starting with the user, and message `2i` and `2i+1`
      are turn `i`'s input and reply. */
  lemma {:induction false} DialogueAlternates(conv: seq<Turn>, n: nat)
    requires n <= |conv|
    ensures forall i :: 0 <= i < n ==>
      Dialogue(conv, n)[2 * i] == Message(User, conv[i].userInput) &&
      Dialogue(conv, n)[2 * i + 1] == Message(Assistant, conv[i].aiReply)
    decreases n
  {
    if n > 0 {
      DialogueAlternates(conv, n - 1);
      var d := Dialogue(conv, n);
      assert d == Dialogue(conv, n - 1) + [Message(User, conv[n - 1].userInput), Message(Assistant, conv[n - 1].aiReply)];
      forall i | 0 <= i < n
        ensures d[2 * i] == Message(User, conv[i].userInput) && d[2 * i + 1] == Message(Assistant, conv[i].aiReply)
      {
        if i < n - 1 {
          assert d[2 * i] == Dialogue(conv, n - 1)[2 * i];
          assert d[2 * i + 1] == Dialogue(conv, n - 1)[2 * i + 1];
        }
      }
    }
  }

  /** The user input waiting to be sent after the first `n` turns. */
  function Pending(o: Oracle, initialPrompt: string, conv: seq<Turn>, n: nat): string
    requires n <= |conv|
  {
    if n == 0 then initialPrompt
    else o.next(conv[n - 1].userInput, conv[n - 1].aiReply)
  }

  /** Whether a run may go on after the first `n` turns: nothing is
      recorded yet, or the judge rejected them without an error. */
  ghost predicate Open(o: Oracle, conv: seq<Turn>, n: nat)
    requires n <= |conv|
  {
    n == 0 || Rejected(o.judge(History(conv, n)))
  }

  /** Turn `i` of `conv` is what a run records after the turns before
      it: the judge rejected those turns, the turn is numbered by its
      round, carries the input pending after them, and holds what the
      target answered to their transcript followed by that input. */
  ghost predicate RecordedAt(o: Oracle, initialPrompt: string, conv: seq<Turn>, i: nat)
    requires i < |conv|
  {
    && Open(o, conv, i)
    && conv[i].round == i + 1
    && conv[i].userInput == Pending(o, initialPrompt, conv, i)
    && o.target(Dialogue(conv, i) + [Message(User, conv[i].userInput)]) == Success(conv[i].aiReply)
  }

  /** The first `n` turns of `conv` are what a run records, built turn by
      turn. */
  ghost predicate Trace(o: Oracle, initialPrompt: string, conv: seq<Turn>, n: nat)
    requires n <= |conv|
    decreases n
  {
    n == 0 || (Trace(o, initialPrompt, conv, n - 1) && RecordedAt(o, initialPrompt, conv, n - 1))
  }

  /** What the first `n` turns say does not depend on the turns after
      them. */
  lemma {:induction false} PrefixDetermines(o: Oracle, initialPrompt: string, a: seq<Turn>, b: seq<Turn>, n: nat)
    requires n <= |a| && n <= |b|
    requires forall i :: 0 <= i < n ==> a[i] == b[i]
    ensures Dialogue(a, n) == Dialogue(b, n)
    ensures History(a, n) == History(b, n)
    ensures Open(o, a, n) == Open(o, b, n)
    ensures Pending(o, initialPrompt, a, n) == Pending(o, initialPrompt, b, n)
    ensures Trace(o, initialPrompt, a, n) == Trace(o, initialPrompt, b, n)
    decreases n
  {
    if n > 0 {
      PrefixDetermines(o, initialPrompt, a, b, n - 1);
    }
  }

  /** `Trace` turn by turn: the first `n` turns are a trace exactly when
      each of them is recorded as `RecordedAt` describes. */
  lemma {:induction false} TraceByTurn(o: Oracle, initialPrompt: string, conv: seq<Turn>, n: nat)
    requires n <= |conv|
    ensures Trace(o, initialPrompt, conv, n) <==> forall i :: 0 <= i < n ==> RecordedAt(o, initialPrompt, conv, i)
    decreases n
  {
    if n > 0 {
      TraceByTurn(o, initialPrompt, conv, n - 1);
    }
  }

  /** The most rounds a run can execute: `MaxRounds`, or none when it is not
      positive. */
  function Budget(cfg: Config.Config): nat {
    if cfg.maxRounds < 0 then 0 else cfg.maxRounds
  }

  /** A configuration `CheckConfig` accepts allows at least one round. */
  lemma ValidConfigRunsARound(cfg: Config.Config)
    requires Config.CheckConfig(cfg).Pass?
    ensures Budget(cfg) >= 1
  {
  }

  /** How the recorded turns `conv` relate to the way the run ended. */
  ghost predicate Ended(cfg: Config.Config, o: Oracle, initialPrompt: string, conv: seq<Turn>, exit: Exit)
  {
    && Trace(o, initialPrompt, conv, |conv|)
    && |conv| <= Budget(cfg)
    && match exit
       // The judge said complete on the last turn.
       case Done(reason) =>
         |conv| >= 1 && o.judge(History(conv, |conv|)) == Judgment(true, reason, None)
       // The run was still open, and the target failed on the next transcript.
       case Aborted(e) =>
         && |conv| < cfg.maxRounds && Open(o, conv, |conv|)
         && o.target(Dialogue(conv, |conv|) + [Message(User, Pending(o, initialPrompt, conv, |conv|))]) == Failure(e)
       // Every round ran and the run is still open.
       case Exhausted =>
         |conv| == Budget(cfg) && Open(o, conv, |conv|)
       // The judge call on the last turn failed.
       case ProcessExit(e) =>
         |conv| >= 1 && o.judge(History(conv, |conv|)).err == Some(e)
  }

  /** What holds at the top of each round. */
  ghost predicate Running(o: Oracle, initialPrompt: string, conv: seq<Turn>, userInput: string)
  {
    && Trace(o, initialPrompt, conv, |conv|)
    && Open(o, conv, |conv|)
    && userInput == Pending(o, initialPrompt, conv, |conv|)
  }

  // ---- The run as a function ----

  /** How a run ends: the turns it recorded and its exit. */
  datatype Finish = Finish(turns: seq<Turn>, exit: Exit)

  /** What the rest of a run yields, with `left` rounds still allowed, the
      turns `conv` recorded, `userInput` pending and `messages` the
      transcript to send: ask the target, record the turn, ask the judge
      and either stop or go on with the next input. */
  function Rounds(o: Oracle, messages: seq<Message>, userInput: string, conv: seq<Turn>, left: nat): Finish
    decreases left
  {
    if left == 0 then Finish(conv, Exhausted)
    else match o.target(messages)
      case Failure(e) => Finish(conv, Aborted(e))
      case Success(reply) =>
        var recorded := conv + [Turn(|conv| + 1, userInput, reply)];
        var j := o.judge(History(recorded, |recorded|));
        if j.err.Some? then Finish(recorded, ProcessExit(j.err.value))
        else if j.complete then Finish(recorded, Done(j.reason))
        else
          var next := o.next(userInput, reply);
          Rounds(o, messages + [Message(Assistant, reply), Message(User, next)], next, recorded, left - 1)
  }

  /** A whole run: up to `Budget(cfg)` rounds from the initial prompt. */
  function Play(cfg: Config.Config, modelName: string, initialPrompt: string, env: Collaborators): Finish {
    Rounds(OracleOf(cfg, modelName, env), [Message(User, initialPrompt)], initialPrompt, [], Budget(cfg))
  }

  /** Appending the turn the target just answered to an open run keeps
      `Trace`, and the rolling transcript gains its input and reply. */
  lemma {:induction false} RecordTurn(o: Oracle, initialPrompt: string, conv: seq<Turn>, t: Turn)
    requires Running(o, initialPrompt, conv, t.userInput)
    requires t.round == |conv| + 1
    requires o.target(Dialogue(conv, |conv|) + [Message(User, t.userInput)]) == Success(t.aiReply)
    ensures Trace(o, initialPrompt, conv + [t], |conv| + 1)
    ensures Dialogue(conv + [t], |conv| + 1) == Dialogue(conv, |conv|) + [Message(User, t.userInput), Message(Assistant, t.aiReply)]
  {
    PrefixDetermines(o, initialPrompt, conv + [t], conv, |conv|);
  }

  /** From any point a run can reach, the rest of the run ends as `Ended`
      describes. */
  lemma {:induction false} RoundsEnded(cfg: Config.Config, o: Oracle, initialPrompt: string,
                                       messages: seq<Message>, userInput: string, conv: seq<Turn>, left: nat)
    requires Running(o, initialPrompt, conv, userInput)
    requires messages == Dialogue(conv, |conv|) + [Message(User, userInput)]
    requires |conv| + left == Budget(cfg)
    ensures var f := Rounds(o, messages, userInput, conv, left);
      Ended(cfg, o, initialPrompt, f.turns, f.exit)
    decreases left
  {
    var reply := o.target(messages);
    if left > 0 && reply.Success? {
      var t := Turn(|conv| + 1, userInput, reply.value);
      RecordTurn(o, initialPrompt, conv, t);
      var recorded := conv + [t];
      if Rejected(o.judge(History(recorded, |recorded|))) {
        var next := o.next(userInput, reply.value);
        var messages' := messages + [Message(Assistant, reply.value), Message(User, next)];
        RoundsEnded(cfg, o, initialPrompt, messages', next, recorded, left - 1);
      }
    }
  }

  /** Every run ends as `Ended` describes. */
  lemma PlayEnded(cfg: Config.Config, modelName: string, initialPrompt: string, env: Collaborators)
    ensures var f := Play(cfg, modelName, initialPrompt, env);
      Ended(cfg, OracleOf(cfg, modelName, env), initialPrompt, f.turns, f.exit)
  {
    RoundsEnded(cfg, OracleOf(cfg, modelName, env), initialPrompt, [Message(User, initialPrompt)], initialPrompt, [], Budget(cfg));
  }

  /** A run for a model name that matches neither configured target stops
      in its first round with nothing recorded, provided it has a round. */
  lemma UnknownModelAborts(cfg: Config.Config, modelName: string, initialPrompt: string, env: Collaborators)
    requires modelName != cfg.qwen.model && modelName != cfg.deepSeek.model
    requires cfg.maxRounds >= 1
    ensures Play(cfg, modelName, initialPrompt, env) == Finish([], Aborted("未知模型: " + modelName))
  {
  }

  /** Every run records at most `MaxRounds` turns, numbered 1, 2, ... in
      order; it ends exhausted only after all of them, and aborted only
      before that. */
  lemma PlayShape(cfg: Config.Config, modelName: string, initialPrompt: string, env: Collaborators)
    ensures var f := Play(cfg, modelName, initialPrompt, env);
      && |f.turns| <= Budget(cfg)
      && (forall i :: 0 <= i < |f.turns| ==> f.turns[i].round == i + 1)
      && (f.exit.Exhausted? ==> |f.turns| == Budget(cfg))
      && (f.exit.Aborted? ==> |f.turns| < Budget(cfg))
  {
    var f := Play(cfg, modelName, initialPrompt, env);
    var o := OracleOf(cfg, modelName, env);
    PlayEnded(cfg, modelName, initialPrompt, env);
    TraceByTurn(o, initialPrompt, f.turns, |f.turns|);
    forall i | 0 <= i < |f.turns|
      ensures f.turns[i].round == i + 1
    {
      assert RecordedAt(o, initialPrompt, f.turns, i);
    }
  }

  // ---- The loop ----

  /** The `for` loop of `Run` building the judge's history. */
  method BuildHistory(conv: seq<Turn>) returns (h: seq<Exchange>)
    ensures h == History(conv, |conv|)
  {
    h := [];
    for i := 0 to |conv|
      invariant h == History(conv, i)
    {
      h := h + [Exchange(conv[i].userInput, conv[i].aiReply)];
    }
  }

  /** The part of a round after its reply is recorded: the judge is asked
      about the whole conversation and, unless it failed or said complete,
      the next input is generated from the last turn, with the fixed
      fallback when generation fails. */
  method Assess(env: Collaborators, conv: seq<Turn>, ghost o: Oracle)
    returns (complete: bool, reason: string, err: Option<string>, next: string)
    requires conv != []
    requires DriverIs(o, env)
    ensures Judgment(complete, reason, err) == o.judge(History(conv, |conv|))
    ensures err.None? && !complete ==> next == o.next(conv[|conv| - 1].userInput, conv[|conv| - 1].aiReply)
  {
    var history := BuildHistory(conv);
    complete, reason, err := CheckIfDecisionComplete(history, env.askJudge, env.parseDecision);
    assert Judgment(complete, reason, err) == Judge(env, history);
    next := "";
    if err.None? && !complete {
      var last := conv[|conv| - 1];
      var nextQ := GenerateNextUserQuestion(QuestionHistory(last.userInput, last.aiReply), env.askQuestion);
      if nextQ.Failure? {
        next := FallbackQuestion;
      } else {
        next := nextQ.value;
      }
      assert next == NextInput(env, last.userInput, last.aiReply);
    }
  }

  /** The round loop of `Run`, on a fresh `result`: each round sends the
      rolling transcript, records the reply, asks the judge and either
      stops or goes on with the next input. It records the turns and exit
      of `Play`; on completion it fills in the success fields, and
      otherwise leaves them as they were. */
  method Converse(cfg: Config.Config, modelName: string, initialPrompt: string, env: Collaborators, result: TestResult,
                  ghost o: Oracle)
    returns (exit: Exit)
    requires TargetIs(o, cfg, modelName, env) && DriverIs(o, env)
    requires result.conversation == [] && result.totalRounds == 0
    requires !result.success && result.finalRecommend == "" && result.geminiJudgeLog == ""
    modifies result
    ensures Finish(result.conversation, exit) == Rounds(o, [Message(User, initialPrompt)], initialPrompt, [], Budget(cfg))
    ensures result.modelName == old(result.modelName)
    ensures result.success <==> exit.Done?
    ensures exit.Done? ==>
      && result.conversation != []
      && result.totalRounds == |result.conversation|
      && result.finalRecommend == result.conversation[|result.conversation| - 1].aiReply
      && result.geminiJudgeLog == exit.reason
    ensures !exit.Done? ==> result.totalRounds == 0 && result.finalRecommend == "" && result.geminiJudgeLog == ""
  {
    var userInput := initialPrompt;
    var messages := [Message(User, userInput)];
    exit := Exhausted;
    var round := 1;
    while round <= cfg.maxRounds
      invariant 1 <= round <= Budget(cfg) + 1 && |result.conversation| == round - 1
      invariant result.modelName == old(result.modelName) && result.totalRounds == 0
      invariant !result.success && result.finalRecommend == "" && result.geminiJudgeLog == ""
      invariant Rounds(o, messages, userInput, result.conversation, Budget(cfg) - (round - 1))
                == Rounds(o, [Message(User, initialPrompt)], initialPrompt, [], Budget(cfg))
      invariant exit == Exhausted
    {
      var reply := CallTarget(cfg, modelName, env, messages);
      if reply.Failure? {
        exit := Aborted(reply.error);
        return;
      }
      var aiReply := reply.value;
      result.conversation := result.conversation + [Turn(round, userInput, aiReply)];

      var complete, reason, err, nextInput := Assess(env, result.conversation, o);
      if err.Some? {
        exit := ProcessExit(err.value);
        return;
      } else if complete {
        result.finalRecommend := aiReply;
        result.success := true;
        result.totalRounds := round;
        result.geminiJudgeLog := reason;
        exit := Done(reason);
        return;
      }
      messages := messages + [Message(Assistant, aiReply), Message(User, nextInput)];
      userInput := nextInput;
      round := round + 1;
    }
  }

  /** One dialogue run for `modelName`, starting from `initialPrompt`: it
      records the turns and exit of `Play`, which `PlayEnded` relates to
      `Ended`. On the three exits that return, the fields are those the
      source leaves: a successful run reports the completing round, its
      reply and the judge's reason; an unsuccessful one reports `MaxRounds`
      rounds however many ran. After a failed judge call the process exits
      before that fix-up. */
  method Run(cfg: Config.Config, modelName: string, initialPrompt: string, env: Collaborators)
    returns (result: TestResult, exit: Exit)
    ensures Finish(result.conversation, exit) == Play(cfg, modelName, initialPrompt, env)
    ensures result.modelName == modelName
    ensures result.success <==> exit.Done?
    ensures result.totalRounds ==
      match exit
      case Done(_) => |result.conversation|
      case ProcessExit(_) => 0
      case _ => cfg.maxRounds
    ensures exit.Done? ==> result.conversation != []
    ensures result.finalRecommend ==
      if exit.Done? then result.conversation[|result.conversation| - 1].aiReply else ""
    ensures result.geminiJudgeLog == if exit.Done? then exit.reason else ""
  {
    result := new TestResult(modelName);
    OracleOfRealises(cfg, modelName, env);
    exit := Converse(cfg, modelName, initialPrompt, env, result, OracleOf(cfg, modelName, env));
    if exit.ProcessExit? {
      return;
    }
    if !result.success {
      result.totalRounds := cfg.maxRounds;
    }
  }
}
