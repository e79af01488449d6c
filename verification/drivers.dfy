/** Post-processing done by the Gemini driver (drivers/gemini.go): picking the
    text out of a decoded response, cleaning a generated question, rendering
    the conversation for the judge and reading the judge's verdict. The HTTP
    exchange and the prompt templates are collaborators passed in as
    functions; JSON decoding of the verdict is an abstract partial parser. */
module Drivers {
  import opened Wrappers
  import opened Text

  // ---- Decoded Gemini response and candidate selection ----

  datatype Part = Part(text: string)
  datatype Candidate = Candidate(parts: seq<Part>)
  datatype GeminiResponse = GeminiResponse(candidates: seq<Candidate>)

  const EmptyResponse := "empty response"

  /** The last step of `callGeminiRaw`: the text of the first part of the
      first candidate, or an error when there is none. Later candidates are
      never consulted. */
  function FirstCandidateText(resp: GeminiResponse): (r: Result<string>)
    ensures r.Failure? <==> resp.candidates == [] || resp.candidates[0].parts == []
    ensures r.Failure? ==> r.error == EmptyResponse
    ensures r.Success? ==> r.value == resp.candidates[0].parts[0].text
  {
    if |resp.candidates| == 0 || |resp.candidates[0].parts| == 0 then Failure(EmptyResponse)
    else Success(resp.candidates[0].parts[0].text)
  }

  // ---- Next-question cleaning ----

  /** The cutset of `strings.Trim` in `GenerateNextUserQuestion`: the ASCII
      double quote and the four typographic quotes. */
  const Quotes := Cutset("\"\U{201C}\U{201D}\U{2018}\U{2019}")

  /** Trim surrounding white space, then surrounding quote characters. */
  function CleanQuestion(raw: string): string {
    Trim(TrimSpace(raw), Quotes)
  }

  /** The cleaned question is a contiguous part of the raw reply, neither
      starts nor ends with a quote character, and trimming quotes from it
      again changes nothing. */
  lemma CleanQuestionSpec(raw: string)
    ensures var q := CleanQuestion(raw);
      && (exists i, j :: 0 <= i <= j <= |raw| && q == raw[i..j])
      && (q == [] || (!In(q[0], Quotes) && !In(q[|q| - 1], Quotes)))
      && Trim(q, Quotes) == q
  {
    var spaced := TrimSpace(raw);
    var q := Trim(spaced, Quotes);
    TrimSpec(raw, WhiteSpace);
    TrimSpec(spaced, Quotes);
    CutFromEndsCompose(raw, spaced, q, WhiteSpace, Quotes);
    TrimIdempotent(spaced, Quotes);
  }

  /** `GenerateNextUserQuestion`, given what the driver answered to the
      question prompt built from `history`: a transport error is passed on,
      a reply is cleaned. */
  function GenerateNextUserQuestion(history: string, ask: string -> Result<string>): (r: Result<string>)
    ensures r.Failure? <==> ask(history).Failure?
    ensures r.Failure? ==> r.error == ask(history).error
    ensures r.Success? ==> r.value == CleanQuestion(ask(history).value)
  {
    match ask(history)
    case Failure(e) => Failure(e)
    case Success(raw) => Success(CleanQuestion(raw))
  }

  // ---- Judge transcript ----

  /** One recorded exchange, the `{"user": ..., "ai": ...}` map of the source. */
  datatype Exchange = Exchange(user: string, ai: string)

  /** How one exchange is written into the judge prompt. */
  function Entry(e: Exchange): string {
    "【用户】" + e.user + "\n【AI】" + e.ai + "\n\n"
  }

  /** The judge transcript: every exchange's entry, in order. */
  function Transcript(conversation: seq<Exchange>): (t: string)
    decreases |conversation|
  {
    if conversation == [] then ""
    else Transcript(conversation[..|conversation| - 1]) + Entry(conversation[|conversation| - 1])
  }

  /** The transcript of a concatenation is the concatenation of the
      transcripts: each exchange contributes its own entry and nothing else. */
  lemma {:induction false} TranscriptAppend(a: seq<Exchange>, b: seq<Exchange>)
    ensures Transcript(a + b) == Transcript(a) + Transcript(b)
    decreases |b|
  {
    if b == [] {
      assert a + b == a;
    } else {
      var b' := b[..|b| - 1];
      var last := Entry(b[|b| - 1]);
      assert (a + b)[..|a + b| - 1] == a + b';
      assert (a + b)[|a + b| - 1] == b[|b| - 1];
      calc {
        Transcript(a + b);
        Transcript(a + b') + last;
        { TranscriptAppend(a, b'); }
        (Transcript(a) + Transcript(b')) + last;
        Transcript(a) + (Transcript(b') + last);
        Transcript(a) + Transcript(b);
      }
    }
  }

  /** The `strings.Builder` loop of `CheckIfDecisionComplete`. */
  method RenderTranscript(conversation: seq<Exchange>) returns (t: string)
    ensures t == Transcript(conversation)
  {
    t := "";
    for i := 0 to |conversation|
      invariant t == Transcript(conversation[..i])
    {
      assert conversation[..i + 1][..i] == conversation[..i];
      t := t + Entry(conversation[i]);
    }
    assert conversation[..|conversation|] == conversation;
  }

  // ---- Judge verdict ----

  /** The payload the judge is asked to produce. */
  datatype Decision = Decision(complete: bool, reason: string)

  /** What `CheckIfDecisionComplete` returns: Go's `(bool, string, error)`. */
  datatype Judgment = Judgment(complete: bool, reason: string, err: Option<string>)

  const JsonFence := "```json"
  const Fence := "```"
  const FormatErrorPrefix := "格式错误: "

  /** Trim white space, then one leading "```json" and one trailing "```". */
  function StripFence(raw: string): string {
    TrimSuffix(TrimPrefix(TrimSpace(raw), JsonFence), Fence)
  }

  /** Removing the fences from `t` removes at most one leading "```json" and
      at most one trailing "```" and nothing else; a leading fence is always
      removed, so is a trailing one left after it, and text without fences
      passes unchanged. */
  lemma {:induction false} UnfenceRemovesOnlyFences(t: string)
    ensures var r := TrimSuffix(TrimPrefix(t, JsonFence), Fence);
      exists i, j :: 0 <= i <= j <= |t| && r == t[i..j] && t[..i] in {"", JsonFence} && t[j..] in {"", Fence}
    ensures !HasPrefix(t, JsonFence) && !HasSuffix(t, Fence) ==>
      TrimSuffix(TrimPrefix(t, JsonFence), Fence) == t
    ensures HasPrefix(t, JsonFence) ==> HasPrefix(t, JsonFence + TrimSuffix(TrimPrefix(t, JsonFence), Fence))
    ensures HasSuffix(TrimPrefix(t, JsonFence), Fence) ==>
      HasSuffix(TrimPrefix(t, JsonFence), TrimSuffix(TrimPrefix(t, JsonFence), Fence) + Fence)
  {
    var u := TrimPrefix(t, JsonFence);
    var r := TrimSuffix(u, Fence);
    var i := |t| - |u|;
    var j := i + |r|;
    assert u == t[i..] && t[..i] in {"", JsonFence} by {
      TrimPrefixSplit(t, JsonFence);
      if HasPrefix(t, JsonFence) { assert t == JsonFence + u; } else { assert t[..0] == ""; }
    }
    assert r == u[..|r|] && u[|r|..] in {"", Fence} by {
      TrimSuffixSplit(u, Fence);
      if HasSuffix(u, Fence) { assert u == r + Fence; } else { assert u[|u|..] == ""; }
    }
    assert r == t[i..j];
    assert t[j..] == u[|r|..];
    if HasPrefix(t, JsonFence) {
      assert t[..|JsonFence + r|] == JsonFence + r;
    }
  }

  /** `StripFence` leaves the white-space-trimmed reply with at most the
      two fences cut off (see `UnfenceRemovesOnlyFences`). */
  lemma StripFenceRemovesOnlyFences(raw: string)
    ensures var t := TrimSpace(raw); var r := StripFence(raw);
      exists i, j :: 0 <= i <= j <= |t| && r == t[i..j] && t[..i] in {"", JsonFence} && t[j..] in {"", Fence}
    ensures var t := TrimSpace(raw);
      !HasPrefix(t, JsonFence) && !HasSuffix(t, Fence) ==> StripFence(raw) == t
  {
    UnfenceRemovesOnlyFences(TrimSpace(raw));
  }

  /** The judge's verdict from what the driver answered: a transport error
      gives `(false, "", err)`; an answer that does not parse after fence
      stripping is "not complete" with the stripped text as the reason and
      no error; a parsed payload is returned as it is. */
  function DecisionFromReply(reply: Result<string>, parse: string -> Option<Decision>): (j: Judgment)
    ensures j.err.Some? <==> reply.Failure?
    ensures reply.Failure? ==> j == Judgment(false, "", Some(reply.error))
    ensures reply.Success? && parse(StripFence(reply.value)).None? ==>
      j == Judgment(false, FormatErrorPrefix + StripFence(reply.value), None)
    ensures reply.Success? && parse(StripFence(reply.value)).Some? ==>
      var d := parse(StripFence(reply.value)).value; j == Judgment(d.complete, d.reason, None)
  {
    match reply
    case Failure(e) => Judgment(false, "", Some(e))
    case Success(text) =>
      var stripped := StripFence(text);
      match parse(stripped)
      case None => Judgment(false, FormatErrorPrefix + stripped, None)
      case Some(d) => Judgment(d.complete, d.reason, None)
  }

  /** A verdict of "complete" only ever comes from a payload that parsed and
      said so; an unparsable answer is never complete and never an error. */
  lemma CompleteOnlyFromPayload(reply: Result<string>, parse: string -> Option<Decision>)
    ensures DecisionFromReply(reply, parse).complete ==>
      reply.Success? && parse(StripFence(reply.value)) == Some(Decision(true, DecisionFromReply(reply, parse).reason))
    ensures reply.Success? && parse(StripFence(reply.value)).None? ==>
      !DecisionFromReply(reply, parse).complete && DecisionFromReply(reply, parse).err.None?
  {
  }

  /** `CheckIfDecisionComplete`: render the conversation, ask the judge
      (`ask` stands for filling the judging prompt and calling Gemini), and
      read its verdict. */
  method CheckIfDecisionComplete(conversation: seq<Exchange>, ask: string -> Result<string>,
                                 parse: string -> Option<Decision>)
    returns (complete: bool, reason: string, err: Option<string>)
    ensures Judgment(complete, reason, err) == DecisionFromReply(ask(Transcript(conversation)), parse)
  {
    var transcript := RenderTranscript(conversation);
    var j := DecisionFromReply(ask(transcript), parse);
    complete, reason, err := j.complete, j.reason, j.err;
  }
}
