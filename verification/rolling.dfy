/** Rolling log-likelihood (`loglikelihood_rolling`): every string is cut into
    scoring windows, the windows of all strings are flattened into one list,
    the list is scored in batches of the adapter's batch size, and the flat
    results are split again by each string's window count and summed.

    Windowing (`get_rolling_token_windows` followed by `make_disjoint_window`,
    with the prefix token and the `max_length - 1` bound fixed) is the
    parameter `windowsOf`; each window is a context/continuation token pair.
    So is the per-window scorer: the adapter's is `Scorer(max_length, engine)`
    from module Loglikelihood. */
module Rolling {
  import opened Wrappers
  import opened PySeq
  import opened Logprobs
  import opened Loglikelihood

  /** The adapter's batch size: the string "auto" or an integer. */
  datatype BatchSize = Auto | Fixed(n: int)

  datatype RollingError =
    | AutoWithoutRequests            // `int("auto")` raises when there are no requests
    | ZeroStep                       // `range(0, n, 0)` raises
    | ScoreFailed(error: ParseError) // a window could not be scored

  /** `adaptive_batch_size or int(self.batch_size)`, and the step check that
      `range` makes. "auto" steps by the number of requests (strings), not
      of windows, so a string with several windows can take several batches. */
  function Step(bs: BatchSize, nRequests: nat): (r: Result<int, RollingError>)
    ensures r.Success? ==> r.value != 0
    ensures r == Failure(AutoWithoutRequests) <==> bs.Auto? && nRequests == 0
    ensures r == Failure(ZeroStep) <==> bs == Fixed(0)
    ensures r.Success? && bs.Auto? ==> r.value == nRequests
    ensures r.Success? && bs.Fixed? ==> r.value == bs.n
  {
    match bs
    case Auto => if nRequests > 0 then Success(nRequests) else Failure(AutoWithoutRequests)
    case Fixed(n) => if n == 0 then Failure(ZeroStep) else Success(n)
  }

  // ---- Batching ----

  /** `[xs[i:i + k] for i in range(from, len(xs), k)]`: consecutive batches of
      `k`, the last one possibly shorter, together exactly the rest of `xs`. */
  function BatchesFrom<T>(xs: seq<T>, from: nat, k: nat): (r: seq<seq<T>>)
    requires 1 <= k && from <= |xs|
    ensures Concat(r) == xs[from..]
    ensures forall b :: 0 <= b < |r| ==> 1 <= |r[b]| <= k
    ensures forall b :: 0 <= b < |r| - 1 ==> |r[b]| == k
    decreases |xs| - from
  {
    if from == |xs| then []
    else
      var next := Min(from + k, |xs|);
      var rest := BatchesFrom(xs, next, k);
      assert ([xs[from..next]] + rest)[1..] == rest;
      assert xs[from..] == xs[from..next] + xs[next..];
      [Slice(xs, from, from + k)] + rest
  }

  /** The batches of the scoring loop; a negative step makes `range` empty. */
  function Batches<T>(xs: seq<T>, k: int): (r: seq<seq<T>>)
    ensures 0 < k ==> Concat(r) == xs
    ensures 0 < k ==> forall b :: 0 <= b < |r| ==> 1 <= |r[b]| <= k
    ensures 0 < k ==> forall b :: 0 <= b < |r| - 1 ==> |r[b]| == k
    ensures k <= 0 ==> r == []
  {
    if k > 0 then BatchesFrom(xs, 0, k) else []
  }

  // ---- Scoring groups of windows ----

  /** `_loglikelihood_tokens` run on each group in turn; the first group that
      fails stops the loop. Running the groups one by one answers exactly as
      running their concatenation at once. */
  function ScoreEach(score: RequestScorer, groups: seq<seq<TokenRequest>>)
    : (r: Result<seq<seq<Scored>>, ParseError>)
    ensures r.Success? <==> LoglikelihoodTokens(score, Concat(groups)).Success?
    ensures r.Success? ==> |r.value| == |groups|
    ensures r.Success? ==> forall j :: 0 <= j < |groups| ==>
      LoglikelihoodTokens(score, groups[j]) == Success(r.value[j])
    ensures r.Success? ==> Concat(r.value) == LoglikelihoodTokens(score, Concat(groups)).value
  {
    if |groups| == 0 then Success([])
    else
      LoglikelihoodTokensAppend(score, groups[0], Concat(groups[1..]));
      match LoglikelihoodTokens(score, groups[0])
      case Failure(e) => Failure(e)
      case Success(first) =>
        match ScoreEach(score, groups[1..])
        case Failure(e) => Failure(e)
        case Success(rest) =>
          assert ([first] + rest)[1..] == rest;
          Success([first] + rest)
  }

  function Logprob(s: Scored): real
  {
    s.logprob
  }

  /** `nll[0] for nll in ...`: the log-probabilities, without the greedy flags. */
  function LogprobsOf(scores: seq<Scored>): (r: seq<real>)
    ensures |r| == |scores|
    ensures forall i :: 0 <= i < |scores| ==> r[i] == scores[i].logprob
  {
    MapSeq(Logprob, scores)
  }

  // ---- Regrouping ----

  /** How many results the first `j` requests take: the position where the
      reconstruction loop stands when it reaches request `j`, less its start. */
  function Taken(counts: seq<int>, j: nat): int
    requires j <= |counts|
  {
    if j == 0 then 0 else counts[0] + Taken(counts[1..], j - 1)
  }

  /** The reconstruction loop: from position `cur`, each request takes the
      next `counts[j]` results and sums them. */
  function Regroup(flat: seq<real>, counts: seq<int>, cur: int): (r: seq<real>)
    ensures |r| == |counts|
  {
    if |counts| == 0 then []
    else [Sum(Slice(flat, cur, cur + counts[0]))] + Regroup(flat, counts[1..], cur + counts[0])
  }

  /** Request `j`'s total is the sum of the `counts[j]` results that start
      where the first `j` requests' results end. */
  lemma {:induction false} RegroupAt(flat: seq<real>, counts: seq<int>, cur: int, j: int)
    requires 0 <= j < |counts|
    ensures Regroup(flat, counts, cur)[j]
         == Sum(Slice(flat, cur + Taken(counts, j), cur + Taken(counts, j) + counts[j]))
  {
    if j > 0 {
      RegroupAt(flat, counts[1..], cur + counts[0], j - 1);
      assert counts[j] == counts[1..][j - 1];
    }
  }

  /** Splitting a flattened list by its parts' lengths sums each part. */
  lemma {:induction false} RegroupGroups(pre: seq<real>, groups: seq<seq<real>>, counts: seq<int>)
    requires |counts| == |groups|
    requires forall j :: 0 <= j < |groups| ==> counts[j] == |groups[j]|
    ensures Regroup(pre + Concat(groups), counts, |pre|) == MapSeq(Sum, groups)
    decreases |groups|
  {
    if |groups| > 0 {
      var flat := pre + Concat(groups);
      assert flat == (pre + groups[0]) + Concat(groups[1..]);
      assert Slice(flat, |pre|, |pre| + counts[0]) == groups[0];
      RegroupGroups(pre + groups[0], groups[1..], counts[1..]);
      assert MapSeq(Sum, groups) == [Sum(groups[0])] + MapSeq(Sum, groups[1..]);
    }
  }

  /** With no results at all every request totals zero. */
  lemma {:induction false} RegroupEmpty(counts: seq<int>, cur: int)
    ensures forall j :: 0 <= j < |counts| ==> Regroup([], counts, cur)[j] == 0.0
  {
    if |counts| > 0 {
      RegroupEmpty(counts[1..], cur + counts[0]);
    }
  }

  // ---- The whole operation ----

  /** The returned totals, and the cache entries `(string, total)` written
      alongside them in request order. */
  datatype RollingResult = RollingResult(totals: seq<real>, cache: seq<(string, real)>)

  function WindowGroups(tok: Tokenizer, windowsOf: seq<Token> -> seq<TokenRequest>, strings: seq<string>)
    : (r: seq<seq<TokenRequest>>)
    ensures |r| == |strings|
    ensures forall j :: 0 <= j < |strings| ==> r[j] == windowsOf(tok(strings[j]))
  {
    MapSeq((s: string) => windowsOf(tok(s)), strings)
  }

  /** `request_window_counts`. */
  function Counts(groups: seq<seq<TokenRequest>>): (r: seq<int>)
    ensures |r| == |groups|
    ensures forall j :: 0 <= j < |groups| ==> r[j] == |groups[j]|
  {
    MapSeq((g: seq<TokenRequest>) => |g|, groups)
  }

  function LoglikelihoodRolling(
    tok: Tokenizer, windowsOf: seq<Token> -> seq<TokenRequest>, bs: BatchSize,
    score: RequestScorer, strings: seq<string>)
    : (r: Result<RollingResult, RollingError>)
    ensures r.Success? ==> |r.value.totals| == |strings|
    ensures r.Success? ==> |r.value.cache| == |strings|
    ensures r.Success? ==> forall j :: 0 <= j < |strings| ==>
      r.value.cache[j] == (strings[j], r.value.totals[j])
    ensures Step(bs, |strings|).Failure? ==> r == Failure(Step(bs, |strings|).error)
  {
    var groups := WindowGroups(tok, windowsOf, strings);
    match Step(bs, |strings|)
    case Failure(e) => Failure(e)
    case Success(k) =>
      match ScoreEach(score, Batches(Concat(groups), k))
      case Failure(e) => Failure(ScoreFailed(e))
      case Success(perBatch) =>
        var totals := Regroup(LogprobsOf(Concat(perBatch)), Counts(groups), 0);
        Success(RollingResult(totals, Zip(strings, totals)))
  }

  /** With a positive step the batches change nothing: the call succeeds
      exactly when scoring string by string does, and each total is the sum
      of that string's log-probabilities. */
  lemma RollingByString(
    tok: Tokenizer, windowsOf: seq<Token> -> seq<TokenRequest>, bs: BatchSize,
    score: RequestScorer, strings: seq<string>)
    requires Step(bs, |strings|).Success? && Step(bs, |strings|).value > 0
    ensures var r := LoglikelihoodRolling(tok, windowsOf, bs, score, strings);
      var byString := ScoreEach(score, WindowGroups(tok, windowsOf, strings));
      && (r.Success? <==> byString.Success?)
      && (r.Success? ==> r.value.totals == MapSeq(Sum, MapSeq(LogprobsOf, byString.value)))
  {
    var groups := WindowGroups(tok, windowsOf, strings);
    var k := Step(bs, |strings|).value;
    var byBatch := ScoreEach(score, Batches(Concat(groups), k));
    var byString := ScoreEach(score, groups);
    assert byBatch.Success? <==> byString.Success?;
    if byString.Success? {
      assert Concat(byBatch.value) == Concat(byString.value);
      RegroupByString(score, groups);
    }
  }

  /** Regrouping the flat results of scoring string by string gives back
      each string's own sum. */
  lemma RegroupByString(score: RequestScorer, groups: seq<seq<TokenRequest>>)
    requires ScoreEach(score, groups).Success?
    ensures var vs := ScoreEach(score, groups).value;
      Regroup(LogprobsOf(Concat(vs)), Counts(groups), 0) == MapSeq(Sum, MapSeq(LogprobsOf, vs))
  {
    var vs := ScoreEach(score, groups).value;
    var parts := MapSeq(LogprobsOf, vs);
    MapSeqConcat(Logprob, vs, parts);
    RegroupGroups([], parts, Counts(groups));
    assert [] + Concat(parts) == Concat(parts);
  }

  /** If every group scores on its own, so does their concatenation. */
  lemma {:induction false} ScoreEachAllGroups(score: RequestScorer, groups: seq<seq<TokenRequest>>)
    requires forall j :: 0 <= j < |groups| ==> LoglikelihoodTokens(score, groups[j]).Success?
    ensures ScoreEach(score, groups).Success?
  {
    if |groups| > 0 {
      ScoreEachAllGroups(score, groups[1..]);
      LoglikelihoodTokensAppend(score, groups[0], Concat(groups[1..]));
    }
  }

  /** With a positive step the call succeeds exactly when every window of
      every string scores, and then each string's total is the sum of its
      own windows' log-probabilities, whatever the batch size. */
  lemma RollingTotals(
    tok: Tokenizer, windowsOf: seq<Token> -> seq<TokenRequest>, bs: BatchSize,
    score: RequestScorer, strings: seq<string>)
    requires Step(bs, |strings|).Success? && Step(bs, |strings|).value > 0
    ensures var r := LoglikelihoodRolling(tok, windowsOf, bs, score, strings);
      var groups := WindowGroups(tok, windowsOf, strings);
      && (r.Success? <==> forall j :: 0 <= j < |strings| ==> LoglikelihoodTokens(score, groups[j]).Success?)
      && (r.Success? ==> forall j :: 0 <= j < |strings| ==>
            r.value.totals[j] == Sum(LogprobsOf(LoglikelihoodTokens(score, groups[j]).value)))
  {
    var groups := WindowGroups(tok, windowsOf, strings);
    RollingByString(tok, windowsOf, bs, score, strings);
    if forall j :: 0 <= j < |strings| ==> LoglikelihoodTokens(score, groups[j]).Success? {
      ScoreEachAllGroups(score, groups);
    }
  }

  /** The grand total is the sum of every window's log-probability. */
  lemma GrandTotal(
    tok: Tokenizer, windowsOf: seq<Token> -> seq<TokenRequest>, bs: BatchSize,
    score: RequestScorer, strings: seq<string>)
    requires Step(bs, |strings|).Success? && Step(bs, |strings|).value > 0
    requires LoglikelihoodRolling(tok, windowsOf, bs, score, strings).Success?
    ensures var all := Concat(WindowGroups(tok, windowsOf, strings));
      && LoglikelihoodTokens(score, all).Success?
      && Sum(LoglikelihoodRolling(tok, windowsOf, bs, score, strings).value.totals)
         == Sum(LogprobsOf(LoglikelihoodTokens(score, all).value))
  {
    var groups := WindowGroups(tok, windowsOf, strings);
    RollingByString(tok, windowsOf, bs, score, strings);
    var byString := ScoreEach(score, groups);
    var parts := MapSeq(LogprobsOf, byString.value);
    MapSeqConcat(Logprob, byString.value, parts);
    SumOfConcat(parts);
  }

  /** A negative batch size makes the scoring loop empty: nothing is scored
      and every string totals zero. */
  lemma NegativeBatchSizeScoresNothing(
    tok: Tokenizer, windowsOf: seq<Token> -> seq<TokenRequest>, n: int,
    score: RequestScorer, strings: seq<string>)
    requires n < 0
    ensures var r := LoglikelihoodRolling(tok, windowsOf, Fixed(n), score, strings);
      && r.Success?
      && forall j :: 0 <= j < |strings| ==> r.value.totals[j] == 0.0
  {
    var groups := WindowGroups(tok, windowsOf, strings);
    assert Concat<Scored>([]) == [];
    assert LogprobsOf([]) == [];
    RegroupEmpty(Counts(groups), 0);
  }
}
