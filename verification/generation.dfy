/** Chat generation (`generate_until`): each request's few-shot data becomes a
    chat conversation, the engine answers it with the request's sampling
    parameters, and a reasoning block closed by `</think>` is split off the
    answer.

    The chat engine is a parameter: given a conversation and sampling
    parameters it returns the generated text and the prompt it rendered. */
module Generation {
  import opened Wrappers
  import opened PySeq
  import opened PyText
  import opened GenKwargs

  // ---- Conversations ----

  datatype Role = System | User | Assistant

  datatype Message = Message(role: Role, content: string)

  /** A request's `ctx_data`: the task description, the few-shot
      (question, answer) pairs and the question to answer. */
  datatype CtxData = CtxData(description: string, fewshots: seq<(string, string)>, example: string)

  /** One user message and one assistant message per few-shot pair, in order. */
  function ShotMessages(shots: seq<(string, string)>): (r: seq<Message>)
    ensures |r| == 2 * |shots|
    ensures forall i :: 0 <= i < |shots| ==>
      r[2 * i] == Message(User, shots[i].0) && r[2 * i + 1] == Message(Assistant, shots[i].1)
    ensures forall k :: 0 <= k < |r| ==> r[k].role == (if k % 2 == 0 then User else Assistant)
  {
    if |shots| == 0 then []
    else
      var rest := ShotMessages(shots[1..]);
      var r := [Message(User, shots[0].0), Message(Assistant, shots[0].1)] + rest;
      assert forall i :: 1 <= i < |shots| ==> shots[i] == shots[1..][i - 1];
      assert forall k :: 2 <= k < |r| ==> r[k] == rest[k - 2];
      r
  }

  /** `fix_text` applied to both halves of every pair. */
  function FixShots(fix: string -> string, shots: seq<(string, string)>): (r: seq<(string, string)>)
    ensures |r| == |shots|
    ensures forall i :: 0 <= i < |shots| ==> r[i] == (fix(shots[i].0), fix(shots[i].1))
  {
    MapSeq((p: (string, string)) => (fix(p.0), fix(p.1)), shots)
  }

  /** The conversation `generate_until` sends for one request: the system
      message, the few-shot pairs, then the question, every content passed
      through the adapter's `fix_text` (which is `strip`: see
      `ConversationStripped`). */
  function BuildConversation(fix: string -> string, data: CtxData): (r: seq<Message>)
    ensures |r| == 2 + 2 * |data.fewshots|
    ensures r[0] == Message(System, fix(data.description))
    ensures r[|r| - 1] == Message(User, fix(data.example))
    ensures forall i :: 0 <= i < |data.fewshots| ==>
      && r[1 + 2 * i] == Message(User, fix(data.fewshots[i].0))
      && r[2 + 2 * i] == Message(Assistant, fix(data.fewshots[i].1))
    ensures forall k :: 1 <= k < |r| ==> r[k].role == (if k % 2 == 1 then User else Assistant)
  {
    var shots := ShotMessages(FixShots(fix, data.fewshots));
    var r := [Message(System, fix(data.description))] + shots + [Message(User, fix(data.example))];
    forall i | 0 <= i < |data.fewshots|
      ensures r[1 + 2 * i] == Message(User, fix(data.fewshots[i].0))
      ensures r[2 + 2 * i] == Message(Assistant, fix(data.fewshots[i].1))
    {
      assert r[1 + 2 * i] == shots[2 * i];
      assert r[2 + 2 * i] == shots[2 * i + 1];
    }
    forall k | 1 <= k < |r|
      ensures r[k].role == (if k % 2 == 1 then User else Assistant)
    {
      if k < |r| - 1 {
        assert r[k] == shots[k - 1];
        assert (k - 1) % 2 == 0 <==> k % 2 == 1;
      }
    }
    r
  }

  /** Laying out pairs of texts that `fix` leaves alone gives messages whose
      contents `fix` leaves alone. */
  lemma {:induction false} ShotMessagesFixed(fix: string -> string, shots: seq<(string, string)>)
    requires forall i :: 0 <= i < |shots| ==> fix(shots[i].0) == shots[i].0 && fix(shots[i].1) == shots[i].1
    ensures forall k :: 0 <= k < |ShotMessages(shots)| ==> fix(ShotMessages(shots)[k].content) == ShotMessages(shots)[k].content
  {
    if |shots| > 0 {
      var rest := ShotMessages(shots[1..]);
      ShotMessagesFixed(fix, shots[1..]);
      assert forall k :: 2 <= k < |ShotMessages(shots)| ==> ShotMessages(shots)[k] == rest[k - 2];
    }
  }

  /** With an idempotent `fix`, fixing any message content again changes
      nothing. */
  lemma ConversationFixed(fix: string -> string, data: CtxData)
    requires forall s :: fix(fix(s)) == fix(s)
    ensures var r := BuildConversation(fix, data);
      forall i :: 0 <= i < |r| ==> fix(r[i].content) == r[i].content
  {
    var r := BuildConversation(fix, data);
    var fixed := FixShots(fix, data.fewshots);
    ShotMessagesFixed(fix, fixed);
    var shots := ShotMessages(fixed);
    assert forall k :: 1 <= k < |r| - 1 ==> r[k] == shots[k - 1];
  }

  /** `fix_text` is `strip`, so every message content is already stripped. */
  lemma ConversationStripped(data: CtxData)
    ensures var r := BuildConversation(Strip, data);
      forall i :: 0 <= i < |r| ==> Strip(r[i].content) == r[i].content
  {
    forall s: string
      ensures Strip(Strip(s)) == Strip(s)
    {
      StripIdempotent(s);
    }
    ConversationFixed(Strip, data);
  }

  // ---- Splitting off the reasoning ----

  const ThinkClose: string := "</think>"

  /** The answer text, and the reasoning block when there is one. */
  datatype Decoded = Decoded(text: string, reasoning: Option<string>)

  /** Without `</think>` the text is kept as it is. With it, everything up to
      and including its last occurrence is the reasoning and the rest is the
      answer, both stripped: the answer is then free of `</think>` and the
      reasoning ends with it. */
  function SplitReasoning(s: string): (r: Decoded)
    ensures r.reasoning.None? <==> !Contains(s, ThinkClose)
    ensures r.reasoning.None? ==> r.text == s
    ensures r.reasoning.Some? ==>
      exists p :: LastEnd(s, ThinkClose, p) && r.reasoning == Some(Strip(s[..p])) && r.text == Strip(s[p..])
    ensures !Contains(r.text, ThinkClose)
    ensures r.reasoning.Some? ==> EndsWith(r.reasoning.value, ThinkClose)
  {
    assert ThinkClose[0] == '<' && ThinkClose[|ThinkClose| - 1] == '>';
    SplitAtLast(s, ThinkClose)
  }

  /** The split for any delimiter that neither starts nor ends with
      whitespace, as `SplitReasoning` states it for `</think>`. */
  function SplitAtLast(s: string, pat: string): (r: Decoded)
    requires 0 < |pat| && !IsSpace(pat[0]) && !IsSpace(pat[|pat| - 1])
    ensures r.reasoning.None? <==> !Contains(s, pat)
    ensures r.reasoning.None? ==> r.text == s
    ensures r.reasoning.Some? ==>
      exists p :: LastEnd(s, pat, p) && r.reasoning == Some(Strip(s[..p])) && r.text == Strip(s[p..])
    ensures !Contains(r.text, pat)
    ensures r.reasoning.Some? ==> EndsWith(r.reasoning.value, pat)
  {
    match RFind(s, pat)
    case None => Decoded(s, None)
    case Some(q) =>
      var p := q + |pat|;
      assert LastEnd(s, pat, p);
      SplitAtLastEnd(s, pat, p);
      NoOccurrenceInStrip(s[p..], pat);
      EndsWithKeptByStrip(s[..p], pat);
      Decoded(Strip(s[p..]), Some(Strip(s[..p])))
  }

  /** `p` is where the answer starts: just after the last occurrence of `pat`. */
  predicate LastEnd(s: string, pat: string, p: int)
  {
    && |pat| <= p <= |s|
    && OccursAt(s, pat, p - |pat|)
    && (forall j :: p - |pat| < j <= |s| ==> !OccursAt(s, pat, j))
  }

  /** Cutting just after the last occurrence: the two parts glue back to the
      text, the first ends with the delimiter and the second is free of it. */
  lemma SplitAtLastEnd(s: string, pat: string, p: int)
    requires 0 < |pat| && LastEnd(s, pat, p)
    ensures s[..p] + s[p..] == s
    ensures EndsWith(s[..p], pat) && !Contains(s[p..], pat)
  {
    assert s[..p][p - |pat|..] == s[p - |pat|..p];
    forall j | 0 <= j <= |s| - p && OccursAt(s[p..], pat, j)
      ensures false
    {
      assert s[p..|s|] == s[p..];
      OccursInSlice(s, p, |s|, pat, j);
    }
  }

  /** The per-answer statistics: the rendered prompt always, the reasoning
      when there is one. */
  function Stats(d: Decoded, prompt: string): (r: map<string, string>)
    ensures "prompt" in r && r["prompt"] == prompt
    ensures "reasoning" in r <==> d.reasoning.Some?
    ensures d.reasoning.Some? ==> r["reasoning"] == d.reasoning.value
    ensures r.Keys <= {"prompt", "reasoning"}
  {
    var base := map["prompt" := prompt];
    if d.reasoning.Some? then base["reasoning" := d.reasoning.value] else base
  }

  // ---- The whole operation ----

  /** One request: the task context (used only as a cache key), the
      conversation data and the generation settings. */
  datatype GenRequest = GenRequest(context: string, ctxData: CtxData, args: GenArgs)

  /** The engine's answer to one conversation: its text and rendered prompt. */
  datatype Response = Response(text: string, prompt: string)

  type ChatEngine = (seq<Message>, SamplingParams) -> Response

  datatype Generated = Generated(text: string, stats: map<string, string>)

  datatype GenError =
    | NoRequests              // unpacking the `zip` of an empty request list raises
    | BadSettings(error: CallError)

  /** One request, from its settings to its post-processed answer. */
  function GenerateOne(chat: ChatEngine, req: GenRequest): (r: Result<Generated, CallError>)
    ensures r.Failure? <==> ChatSamplingParams(req.args).Failure?
  {
    match ChatSamplingParams(req.args)
    case Failure(e) => Failure(e)
    case Success(params) =>
      var resp := chat(BuildConversation(Strip, req.ctxData), params);
      var d := SplitReasoning(resp.text);
      Success(Generated(d.text, Stats(d, resp.prompt)))
  }

  /** Handles one request; the adapter's handler is `Generator(chat)`. */
  type RequestHandler = GenRequest -> Result<Generated, CallError>

  function Generator(chat: ChatEngine): RequestHandler
  {
    (req: GenRequest) => GenerateOne(chat, req)
  }

  /** The request loop of `generate_until` for any per-request handler: the
      answers in request order, the first failing request failing the call,
      and an empty request list failing before anything runs. The grouping
      by settings and the reordering by prompt length between the two ends
      do not change any request's answer. */
  function GenerateAll(handle: RequestHandler, reqs: seq<GenRequest>): (r: Result<seq<Generated>, GenError>)
    ensures r == Failure(NoRequests) <==> |reqs| == 0
    ensures r.Success? <==> |reqs| > 0 && forall i :: 0 <= i < |reqs| ==> handle(reqs[i]).Success?
    ensures r.Success? ==> |r.value| == |reqs|
    ensures r.Success? ==> forall i :: 0 <= i < |reqs| ==> handle(reqs[i]) == Success(r.value[i])
    ensures r.Failure? && |reqs| > 0 ==> exists i :: 0 <= i < |reqs| && handle(reqs[i]) == Failure(r.error.error)
  {
    if |reqs| == 0 then Failure(NoRequests)
    else
      match Collect(MapSeq(handle, reqs))
      case Failure(e) => Failure(BadSettings(e))
      case Success(gs) => Success(gs)
  }

  /** `generate_until`: it fails only on an empty request list or on settings
      that `ChatSamplingParams` rejects, and otherwise answers every request
      with `GenerateOne`. */
  function GenerateUntil(chat: ChatEngine, reqs: seq<GenRequest>): (r: Result<seq<Generated>, GenError>)
    ensures r.Success? <==> |reqs| > 0 && forall i :: 0 <= i < |reqs| ==> ChatSamplingParams(reqs[i].args).Success?
    ensures r.Success? ==> |r.value| == |reqs|
    ensures r.Success? ==> forall i :: 0 <= i < |reqs| ==> GenerateOne(chat, reqs[i]) == Success(r.value[i])
  {
    assert forall i :: 0 <= i < |reqs| ==> Generator(chat)(reqs[i]) == GenerateOne(chat, reqs[i]);
    GenerateAll(Generator(chat), reqs)
  }

  /** Every returned answer is free of `</think>`; its statistics carry a
      reasoning entry exactly when the engine's text contained one; and the
      answer is the engine's text itself when it did not. */
  lemma GeneratedAnswers(chat: ChatEngine, reqs: seq<GenRequest>)
    ensures var r := GenerateUntil(chat, reqs);
      r.Success? ==> var gs := r.value; forall i :: 0 <= i < |reqs| ==>
        var resp := chat(BuildConversation(Strip, reqs[i].ctxData), ChatSamplingParams(reqs[i].args).value);
        && !Contains(gs[i].text, ThinkClose)
        && ("reasoning" in gs[i].stats <==> Contains(resp.text, ThinkClose))
        && gs[i].stats["prompt"] == resp.prompt
        && (!Contains(resp.text, ThinkClose) ==> gs[i].text == resp.text)
  {
  }

  /** A request's `until` and `max_gen_toks` settings do not change its answer. */
  lemma AnswerIgnoresStopAndLength(chat: ChatEngine, data: CtxData, context: string, kw1: Kwargs, kw2: Kwargs)
    requires forall k :: k !in {"until", "max_gen_toks"} ==> (k in kw1 <==> k in kw2)
    requires forall k :: k !in {"until", "max_gen_toks"} && k in kw1 ==> kw1[k] == kw2[k]
    ensures GenerateOne(chat, GenRequest(context, data, KwDict(kw1)))
         == GenerateOne(chat, GenRequest(context, data, KwDict(kw2)))
  {
    StopAndLengthIgnored(kw1, kw2);
  }
}
