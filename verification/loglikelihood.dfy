/** Scored continuation likelihood: how a `(context, continuation)` text pair
    is encoded (`_encode_pair`, `loglikelihood`), how the token pair is cut to
    the model's maximum length (`_loglikelihood_tokens`), and how each cut
    input is scored (`_parse_logprobs`, in module Logprobs).

    The tokenizer is a parameter: `tok` is `tok_encode` with the adapter's
    fixed special-token setting, a total function from text to token ids.
    The engine is a parameter too: `engine(input)` is the list of per-position
    distributions (`prompt_logprobs`) it returns for one input. */
module Loglikelihood {
  import opened Wrappers
  import opened PySeq
  import opened PyText
  import opened Logprobs

  type Tokenizer = string -> seq<Token>

  type Engine = seq<Token> -> seq<Option<Distribution>>

  // ---- Truncation to the maximum length ----

  /** The engine input and the number of its leading context positions. */
  datatype Truncated = Truncated(input: seq<Token>, ctxlen: int)

  /** `inp = (ctx + cont)[-max_length:]` and
      `ctxlen = len(ctx) - max(0, len(ctx) + len(cont) - max_length)`. */
  function Truncate(context: seq<Token>, continuation: seq<Token>, maxLength: int): (r: Truncated)
    ensures 1 <= maxLength ==> |r.input| == Min(maxLength, |context| + |continuation|)
    ensures 1 <= maxLength ==> r.input == (context + continuation)[|context| + |continuation| - |r.input|..]
    ensures 1 <= maxLength ==> r.ctxlen == |r.input| - |continuation|
  {
    Truncated(
      DropFrom(context + continuation, -maxLength),
      |context| - Max(0, |context| + |continuation| - maxLength))
  }

  /** A continuation that fits is kept whole: it is exactly what follows the
      first `ctxlen` input positions. */
  lemma TruncateKeepsContinuation(context: seq<Token>, continuation: seq<Token>, maxLength: int)
    requires 1 <= maxLength && |continuation| <= maxLength
    ensures var r := Truncate(context, continuation, maxLength);
      && |r.input| <= maxLength
      && 0 <= r.ctxlen <= |r.input|
      && r.input[r.ctxlen..] == continuation
  {
    var r := Truncate(context, continuation, maxLength);
    var whole := context + continuation;
    assert r.input == whole[|whole| - |r.input|..];
    assert r.input[r.ctxlen..] == whole[|context|..];
  }

  /** A pair that fits is passed through untouched. */
  lemma TruncateFitting(context: seq<Token>, continuation: seq<Token>, maxLength: int)
    requires 1 <= maxLength && |context| + |continuation| <= maxLength
    ensures Truncate(context, continuation, maxLength) == Truncated(context + continuation, |context|)
  {
  }

  /** A continuation longer than `maxLength` leaves a negative `ctxlen`, and
      Python reads a negative `ctxlen` from the end of the input: the scored
      positions start at `2 * maxLength - |continuation|`, or at 0 when that
      is not positive. */
  lemma LongContinuationScoredFrom(context: seq<Token>, continuation: seq<Token>, maxLength: int, engine: Engine)
    requires 1 <= maxLength < |continuation|
    requires var t := Truncate(context, continuation, maxLength);
      |engine(t.input)| == |t.input|
    ensures var t := Truncate(context, continuation, maxLength);
      && |t.input| == maxLength
      && t.ctxlen == maxLength - |continuation| < 0
      && ScoreTokens(TokenRequest(context, continuation), maxLength, engine)
           == ParseLogprobs(t.input, engine(t.input), Max(2 * maxLength - |continuation|, 0))
  {
    var t := Truncate(context, continuation, maxLength);
    var start := Max(2 * maxLength - |continuation|, 0);
    assert |t.input| == maxLength;
    assert SliceBound(|t.input|, t.ctxlen) == start == SliceBound(|t.input|, start);
    assert ScoredPositions(t.input, engine(t.input), t.ctxlen) == ScoredPositions(t.input, engine(t.input), start);
  }

  /** So a continuation of exactly `maxLength` tokens, or of at least twice
      that, has the first input position scored; the engine reports no
      distribution there, and the request fails. */
  lemma LongContinuationFails(context: seq<Token>, continuation: seq<Token>, maxLength: int, engine: Engine)
    requires 1 <= maxLength
    requires |continuation| == maxLength || 2 * maxLength <= |continuation|
    requires var t := Truncate(context, continuation, maxLength);
      |engine(t.input)| == |t.input| && engine(t.input)[0].None?
    ensures ScoreTokens(TokenRequest(context, continuation), maxLength, engine) == Failure(NullDistribution(0))
  {
    var t := Truncate(context, continuation, maxLength);
    if |continuation| > maxLength {
      LongContinuationScoredFrom(context, continuation, maxLength, engine);
    }
    ScoredPositionsByIndex(t.input, engine(t.input), 0);
  }

  /** A context that encodes to no tokens at all (a non-empty context of
      whitespace only, say) leaves `ctxlen` at 0, so the first input
      position is scored; the engine reports no distribution there, and the
      request fails. */
  lemma EmptyContextFails(continuation: seq<Token>, maxLength: int, engine: Engine)
    requires 1 <= |continuation| <= maxLength
    requires |engine(continuation)| == |continuation| && engine(continuation)[0].None?
    ensures ScoreTokens(TokenRequest([], continuation), maxLength, engine) == Failure(NullDistribution(0))
  {
    var t := Truncate([], continuation, maxLength);
    assert t.input == continuation by {
      TruncateFitting([], continuation, maxLength);
      assert [] + continuation == continuation;
    }
    ScoredPositionsByIndex(t.input, engine(t.input), 0);
  }

  // ---- Encoding a text pair ----

  /** `_encode_pair`'s first step: the context's trailing whitespace moves to
      the front of the continuation. */
  function ShiftWhitespace(context: string, continuation: string): (r: (string, string))
    ensures r.0 + r.1 == context + continuation
    ensures r.0 == RStrip(context)
    ensures |r.0| <= |context| && r.1 == context[|r.0|..] + continuation && AllSpace(context[|r.0|..])
    ensures NoTrailingSpace(context) ==> r == (context, continuation)
  {
    RStripSpec(context);
    var nSpaces := |context| - |RStrip(context)|;
    if nSpaces > 0 then
      (context[..|context| - nSpaces], context[|context| - nSpaces..] + continuation)
    else
      (context, continuation)
  }

  /** `_encode_pair`: the context is encoded on its own, and the continuation
      is what the encoding of the whole text has after as many tokens as the
      context encoding has. */
  function EncodePair(tok: Tokenizer, context: string, continuation: string): (r: (seq<Token>, seq<Token>))
    ensures r.0 == tok(RStrip(context))
    ensures r.1 == DropFrom(tok(context + continuation), |r.0|)
  {
    var (ctx, cont) := ShiftWhitespace(context, continuation);
    var whole := tok(ctx + cont);
    var ctxEnc := tok(ctx);
    (ctxEnc, whole[Min(|ctxEnc|, |whole|)..])
  }

  /** When the stripped context's tokens are a prefix of the whole text's
      tokens, the two parts concatenate back to the whole encoding. */
  lemma EncodePairSplitsWhole(tok: Tokenizer, context: string, continuation: string)
    requires var c := tok(RStrip(context)); var w := tok(context + continuation);
      |c| <= |w| && w[..|c|] == c
    ensures var r := EncodePair(tok, context, continuation);
      r.0 + r.1 == tok(context + continuation)
  {
  }

  /** `loglikelihood`'s per-request encoding: an empty context becomes the
      end-of-text token alone. */
  function EncodeRequest(tok: Tokenizer, eot: Token, context: string, continuation: string): (r: (seq<Token>, seq<Token>))
    ensures context == "" ==> r == ([eot], tok(continuation))
    ensures context != "" ==> r.0 == tok(RStrip(context))
    ensures context != "" ==> r.1 == DropFrom(tok(context + continuation), |r.0|)
  {
    if context == "" then ([eot], tok(continuation))
    else EncodePair(tok, context, continuation)
  }

  /** `prefix_token_id`: a configured id wins, then the tokenizer's
      beginning-of-text id, then its end-of-text id. */
  function PrefixTokenId(custom: Option<Token>, bos: Option<Token>, eos: Option<Token>): (r: Option<Token>)
    ensures r.Some? <==> custom.Some? || bos.Some? || eos.Some?
    ensures custom.Some? ==> r == custom
    ensures custom.None? && bos.Some? ==> r == bos
    ensures custom.None? && bos.None? ==> r == eos
  {
    if custom.Some? then custom
    else if bos.Some? then bos
    else eos
  }

  // ---- Scoring requests ----

  datatype TokenRequest = TokenRequest(context: seq<Token>, continuation: seq<Token>)

  /** One request of `_loglikelihood_tokens`: cut, run, parse. With room for
      at least one context token, the request is scored on its continuation
      exactly: success needs the engine's distribution at each continuation
      position to hold that token, and the score is the sum. */
  function ScoreTokens(req: TokenRequest, maxLength: int, engine: Engine): (r: Result<Scored, ParseError>)
    ensures var t := Truncate(req.context, req.continuation, maxLength);
      1 <= |req.context| && |req.continuation| < maxLength && |engine(t.input)| == |t.input| ==>
        && 1 <= t.ctxlen
        && t.input[t.ctxlen..] == req.continuation
        && (r.Success? <==> RangeScorable(t.input, engine(t.input), t.ctxlen, |t.input|))
        && (r.Success? ==> r.value.logprob == RangeSum(t.input, engine(t.input), t.ctxlen, |t.input|))
  {
    var t := Truncate(req.context, req.continuation, maxLength);
    if 1 <= |req.context| && |req.continuation| < maxLength && |engine(t.input)| == |t.input| then
      TruncateKeepsContinuation(req.context, req.continuation, maxLength);
      ParseLogprobsSum(t.input, engine(t.input), t.ctxlen);
      ParseLogprobs(t.input, engine(t.input), t.ctxlen)
    else
      ParseLogprobs(t.input, engine(t.input), t.ctxlen)
  }

  /** With room for at least one context token, a request is scored on its
      continuation exactly: success needs the engine's distribution at each
      continuation position to hold that token, and the score is the sum. */
  lemma ScoreTokensSumsContinuation(req: TokenRequest, maxLength: int, engine: Engine)
    requires 1 <= |req.context| && |req.continuation| < maxLength
    requires var t := Truncate(req.context, req.continuation, maxLength);
      |engine(t.input)| == |t.input|
    ensures var t := Truncate(req.context, req.continuation, maxLength);
      var r := ScoreTokens(req, maxLength, engine);
      && 1 <= t.ctxlen
      && t.input[t.ctxlen..] == req.continuation
      && (r.Success? <==> RangeScorable(t.input, engine(t.input), t.ctxlen, |t.input|))
      && (r.Success? ==> r.value.logprob == RangeSum(t.input, engine(t.input), t.ctxlen, |t.input|))
  {
    var t := Truncate(req.context, req.continuation, maxLength);
    TruncateKeepsContinuation(req.context, req.continuation, maxLength);
    ParseLogprobsSum(t.input, engine(t.input), t.ctxlen);
  }

  /** Scores one token request: the adapter's scorer is `Scorer`, and the
      list-level operations below hold for any scorer. */
  type RequestScorer = TokenRequest -> Result<Scored, ParseError>

  /** `ScoreTokens` with the model's settings fixed, as a value. */
  function Scorer(maxLength: int, engine: Engine): RequestScorer
  {
    (req: TokenRequest) => ScoreTokens(req, maxLength, engine)
  }

  /** `_loglikelihood_tokens`: every request is scored on its own and the
      answers come back in request order; any failure fails the call. The
      reordering and batching between those two points does not change the
      answers. */
  function LoglikelihoodTokens(score: RequestScorer, reqs: seq<TokenRequest>): (r: Result<seq<Scored>, ParseError>)
    ensures r.Success? <==> forall i :: 0 <= i < |reqs| ==> score(reqs[i]).Success?
    ensures r.Success? ==> |r.value| == |reqs|
    ensures r.Success? ==> forall i :: 0 <= i < |reqs| ==> score(reqs[i]) == Success(r.value[i])
    ensures r.Failure? ==> exists i :: 0 <= i < |reqs| && score(reqs[i]) == Failure(r.error)
  {
    Collect(MapSeq(score, reqs))
  }

  /** Scoring two request lists together is scoring each of them. */
  lemma LoglikelihoodTokensAppend(score: RequestScorer, a: seq<TokenRequest>, b: seq<TokenRequest>)
    ensures var ra := LoglikelihoodTokens(score, a);
      var rb := LoglikelihoodTokens(score, b);
      var rab := LoglikelihoodTokens(score, a + b);
      && (rab.Success? <==> ra.Success? && rb.Success?)
      && (rab.Success? ==> rab.value == ra.value + rb.value)
  {
    MapSeqAppend(score, a, b);
    CollectAppend(MapSeq(score, a), MapSeq(score, b));
  }

  /** One `(context, continuation)` pair of `loglikelihood` as a token request. */
  function EncodedRequest(tok: Tokenizer, eot: Token, pair: (string, string)): TokenRequest
  {
    var (ctx, cont) := EncodeRequest(tok, eot, pair.0, pair.1);
    TokenRequest(ctx, cont)
  }

  /** `loglikelihood`: encode every pair, then score the token requests. The
      call succeeds iff every encoded pair scores, and a failure is the
      failure of one of them. */
  function Loglikelihood(
    tok: Tokenizer, eot: Token, maxLength: int, engine: Engine, requests: seq<(string, string)>)
    : (r: Result<seq<Scored>, ParseError>)
    ensures r.Success? <==> forall i :: 0 <= i < |requests| ==>
      ScoreTokens(EncodedRequest(tok, eot, requests[i]), maxLength, engine).Success?
    ensures r.Success? ==> |r.value| == |requests|
    ensures r.Success? ==> forall i :: 0 <= i < |requests| ==>
      ScoreTokens(EncodedRequest(tok, eot, requests[i]), maxLength, engine) == Success(r.value[i])
    ensures r.Failure? ==>
      exists i :: 0 <= i < |requests| &&
        ScoreTokens(EncodedRequest(tok, eot, requests[i]), maxLength, engine) == Failure(r.error)
  {
    var reqs := MapSeq((pair: (string, string)) => EncodedRequest(tok, eot, pair), requests);
    LoglikelihoodTokens(Scorer(maxLength, engine), reqs)
  }
}
