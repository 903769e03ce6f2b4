/** Decomposition of the engine's prompt log-probabilities into a continuation
    score and a greedy-match flag (the adapter's `_parse_logprobs`).

    The engine reports, for every prompt position, a dictionary from candidate
    token to log-probability, or nothing at all (always so for position 0).
    Python dictionaries iterate in insertion order, so a distribution is
    modelled as the ordered list of its candidates; that order decides which
    candidate `max(d, key=d.get)` returns when scores tie. A dictionary holds
    each token once (`DistinctTokens`); the list type admits repeats, and on
    such a list the lookup answers with the first candidate carrying the token,
    while the arg-max compares candidates' own scores. The engine's
    `Logprob` wrapper is unwrapped to its number, so a candidate carries the
    number directly. Scores are exact reals. */
module Logprobs {
  import opened Wrappers
  import opened PySeq

  type Token = int

  datatype Candidate = Candidate(token: Token, logprob: real)

  /** One position's candidates, in the dictionary's iteration order. */
  type Distribution = seq<Candidate>

  /** A realized token paired with the engine's distribution at its position. */
  type Position = (Token, Option<Distribution>)

  datatype Scored = Scored(logprob: real, isGreedy: bool)

  /** Why the sum raises: `.get` on a missing distribution (`AttributeError`),
      or a distribution without the realized token, whose `None` then reaches
      `sum` (`TypeError`). `offset` counts scored positions from the first. */
  datatype ParseError = NullDistribution(offset: nat) | MissingToken(offset: nat)

  /** The candidate list of a dictionary: no token occurs twice. */
  predicate DistinctTokens(d: Distribution)
  {
    forall i, j :: 0 <= i < j < |d| ==> d[i].token != d[j].token
  }

  /** Candidate `j` is the first at or after `k` that carries `t`. */
  predicate FirstCarrier(d: Distribution, t: Token, k: int, j: int)
  {
    && 0 <= k <= j < |d|
    && d[j].token == t
    && forall i :: k <= i < j ==> d[i].token != t
  }

  /** The dictionary lookup, scanning candidates from index `k` on: the score
      of the first candidate at or after `k` that carries `t`. */
  function GetFrom(d: Distribution, t: Token, k: nat): (r: Option<real>)
    requires k <= |d|
    ensures r.None? <==> forall j :: k <= j < |d| ==> d[j].token != t
    ensures r.Some? ==> exists j :: FirstCarrier(d, t, k, j) && r.value == d[j].logprob
    decreases |d| - k
  {
    if k == |d| then None
    else if d[k].token == t then Some(d[k].logprob)
    else GetFrom(d, t, k + 1)
  }

  /** `d.get(t)`: the score of the candidate carrying `t`, if there is one. */
  function Get(d: Distribution, t: Token): (r: Option<real>)
    ensures r.None? <==> forall j :: 0 <= j < |d| ==> d[j].token != t
    ensures r.Some? ==> exists j :: FirstCarrier(d, t, 0, j) && r.value == d[j].logprob
  {
    GetFrom(d, t, 0)
  }

  /** On a dictionary's candidates, looking up a candidate's token gives that
      candidate's score. */
  lemma GetCandidate(d: Distribution, j: int)
    requires DistinctTokens(d) && 0 <= j < |d|
    ensures Get(d, d[j].token) == Some(d[j].logprob)
  {
    var r := Get(d, d[j].token);
    var k :| FirstCarrier(d, d[j].token, 0, k) && r.value == d[k].logprob;
    assert k == j;
  }

  /** Candidate `k` is the one `max(d, key=d.get)` returns: its score is at
      least every other, and strictly above every candidate before it. */
  predicate IsFirstMax(d: Distribution, k: int)
  {
    && 0 <= k < |d|
    && (forall j :: 0 <= j < |d| ==> d[j].logprob <= d[k].logprob)
    && (forall j :: 0 <= j < k ==> d[j].logprob < d[k].logprob)
  }

  /** Python's `max` keeps the current best unless a later item is strictly
      greater. */
  function TopIndex(d: Distribution): (k: nat)
    requires |d| > 0
    ensures IsFirstMax(d, k)
    decreases |d|
  {
    if |d| == 1 then 0
    else
      var k := TopIndex(d[..|d| - 1]);
      assert forall j :: 0 <= j < |d| - 1 ==> d[..|d| - 1][j] == d[j];
      if d[|d| - 1].logprob > d[k].logprob then |d| - 1 else k
  }

  function TopToken(d: Distribution): Token
    requires |d| > 0
  {
    d[TopIndex(d)].token
  }

  lemma FirstMaxUnique(d: Distribution, k1: int, k2: int)
    requires IsFirstMax(d, k1) && IsFirstMax(d, k2)
    ensures k1 == k2
  {
    assert d[k1].logprob <= d[k2].logprob;
    assert d[k2].logprob <= d[k1].logprob;
  }

  /** The arg-max is a token iff that token sits at the first maximal score. */
  lemma TopTokenIsFirstMax(d: Distribution, t: Token)
    requires |d| > 0
    ensures TopToken(d) == t <==> exists k :: IsFirstMax(d, k) && d[k].token == t
  {
    if exists k :: IsFirstMax(d, k) && d[k].token == t {
      var k :| IsFirstMax(d, k) && d[k].token == t;
      FirstMaxUnique(d, k, TopIndex(d));
    } else {
      assert IsFirstMax(d, TopIndex(d));
    }
  }

  /** Whether the greedy check accepts one position: it skips a missing or an
      empty distribution, and otherwise needs the arg-max to be the token. */
  predicate ArgmaxAgrees(p: Position)
  {
    match p.1
    case None => true
    case Some(d) => |d| == 0 || TopToken(d) == p.0
  }

  predicate Scorable(p: Position)
  {
    p.1.Some? && Get(p.1.value, p.0).Some?
  }

  /** `zip(tokens[ctxlen:], dists[ctxlen:])`. */
  function ScoredPositions(tokens: seq<Token>, dists: seq<Option<Distribution>>, ctxlen: int): seq<Position>
  {
    Zip(DropFrom(tokens, ctxlen), DropFrom(dists, ctxlen))
  }

  /** The `sum(...)` generator from offset `i` on: it raises at the first
      position that cannot be scored. */
  function ContinuationLogprob(ps: seq<Position>, i: nat): (r: Result<real, ParseError>)
    requires i <= |ps|
    ensures r.Success? <==> forall j :: i <= j < |ps| ==> Scorable(ps[j])
    ensures r.Failure? ==> i <= r.error.offset < |ps| && !Scorable(ps[r.error.offset])
    ensures r.Failure? ==> forall j :: i <= j < r.error.offset ==> Scorable(ps[j])
    ensures r.Failure? ==> (r.error.NullDistribution? <==> ps[r.error.offset].1.None?)
    decreases |ps| - i
  {
    if i == |ps| then Success(0.0)
    else if ps[i].1.None? then Failure(NullDistribution(i))
    else
      match Get(ps[i].1.value, ps[i].0)
      case None => Failure(MissingToken(i))
      case Some(v) =>
        match ContinuationLogprob(ps, i + 1)
        case Success(rest) => Success(v + rest)
        case Failure(e) => Failure(e)
  }

  /** The greedy loop from offset `i` on, which breaks at the first mismatch:
      true exactly when every remaining position is accepted. */
  function Greedy(ps: seq<Position>, i: nat): (r: bool)
    requires i <= |ps|
    ensures r <==> forall j :: i <= j < |ps| ==> ArgmaxAgrees(ps[j])
    decreases |ps| - i
  {
    if i == |ps| then true
    else if ps[i].1.Some? && |ps[i].1.value| > 0 && TopToken(ps[i].1.value) != ps[i].0 then false
    else Greedy(ps, i + 1)
  }

  /** The body of `_parse_logprobs` once the positions are paired: the sum
      runs first and may raise; the greedy flag is computed only when it does
      not. */
  function ParsePositions(ps: seq<Position>): (r: Result<Scored, ParseError>)
    ensures r.Success? <==> forall j :: 0 <= j < |ps| ==> Scorable(ps[j])
    ensures r.Success? ==> (r.value.isGreedy <==> forall j :: 0 <= j < |ps| ==> TopToken(ps[j].1.value) == ps[j].0)
  {
    match ContinuationLogprob(ps, 0)
    case Failure(e) => Failure(e)
    case Success(v) =>
      assert forall j :: 0 <= j < |ps| ==> |ps[j].1.value| > 0;
      Success(Scored(v, Greedy(ps, 0)))
  }

  /** `_parse_logprobs(tokens, outputs, ctxlen)`. */
  function ParseLogprobs(tokens: seq<Token>, dists: seq<Option<Distribution>>, ctxlen: int): (r: Result<Scored, ParseError>)
    ensures var ps := ScoredPositions(tokens, dists, ctxlen);
      r.Success? <==> forall j :: 0 <= j < |ps| ==> Scorable(ps[j])
    ensures var ps := ScoredPositions(tokens, dists, ctxlen);
      r.Success? ==> (r.value.isGreedy <==> forall j :: 0 <= j < |ps| ==> TopToken(ps[j].1.value) == ps[j].0)
  {
    ParsePositions(ScoredPositions(tokens, dists, ctxlen))
  }

  // ---- The same quantities stated position by position ----

  /** Every position in `lo..hi` has a distribution holding its token. */
  predicate RangeScorable(tokens: seq<Token>, dists: seq<Option<Distribution>>, lo: int, hi: int)
    requires 0 <= lo && hi <= |tokens| && hi <= |dists|
  {
    forall i :: lo <= i < hi ==> dists[i].Some? && Get(dists[i].value, tokens[i]).Some?
  }

  /** `dists[lo][tokens[lo]] + ... + dists[hi-1][tokens[hi-1]]`. */
  function RangeSum(tokens: seq<Token>, dists: seq<Option<Distribution>>, lo: int, hi: int): real
    requires 0 <= lo && hi <= |tokens| && hi <= |dists|
    requires RangeScorable(tokens, dists, lo, hi)
    decreases hi - lo
  {
    if lo >= hi then 0.0
    else Get(dists[lo].value, tokens[lo]).value + RangeSum(tokens, dists, lo + 1, hi)
  }

  /** With a non-negative `ctxlen`, the scored positions are `ctxlen` up to
      the shorter of the two lists, each paired with its own distribution. */
  lemma ScoredPositionsByIndex(tokens: seq<Token>, dists: seq<Option<Distribution>>, ctxlen: int)
    requires 0 <= ctxlen
    ensures var ps := ScoredPositions(tokens, dists, ctxlen);
      && |ps| == Max(0, Min(|tokens|, |dists|) - ctxlen)
      && forall j :: 0 <= j < |ps| ==> ps[j] == (tokens[ctxlen + j], dists[ctxlen + j])
  {
    var ps := ScoredPositions(tokens, dists, ctxlen);
    var a, b := DropFrom(tokens, ctxlen), DropFrom(dists, ctxlen);
    assert |ps| == Min(|a|, |b|);
    forall j | 0 <= j < |ps|
      ensures ps[j] == (tokens[ctxlen + j], dists[ctxlen + j])
    {
      assert ps[j] == (a[j], b[j]);
    }
  }

  /** Summing positions `i..` of a list that pairs `tokens[lo..hi]` with
      `dists[lo..hi]` is summing the range `lo + i .. hi` directly. */
  lemma {:induction false} ContinuationLogprobIsRangeSum(
    ps: seq<Position>, tokens: seq<Token>, dists: seq<Option<Distribution>>, lo: int, hi: int, i: nat)
    requires 0 <= lo <= hi <= |tokens| && hi <= |dists|
    requires |ps| == hi - lo && i <= |ps|
    requires forall j :: 0 <= j < |ps| ==> ps[j] == (tokens[lo + j], dists[lo + j])
    ensures ContinuationLogprob(ps, i).Success? <==> RangeScorable(tokens, dists, lo + i, hi)
    ensures ContinuationLogprob(ps, i).Success? ==>
      ContinuationLogprob(ps, i).value == RangeSum(tokens, dists, lo + i, hi)
    decreases |ps| - i
  {
    if i < |ps| {
      ContinuationLogprobIsRangeSum(ps, tokens, dists, lo, hi, i + 1);
      assert ps[i] == (tokens[lo + i], dists[lo + i]);
    }
  }

  /** The scoring succeeds exactly when every position from `ctxlen` to the
      end of the shorter list has a distribution holding its token, and then
      the continuation log-probability is the sum of those tokens' scores. */
  lemma ParseLogprobsSum(tokens: seq<Token>, dists: seq<Option<Distribution>>, ctxlen: int)
    requires 0 <= ctxlen <= Min(|tokens|, |dists|)
    ensures var r := ParseLogprobs(tokens, dists, ctxlen);
      var hi := Min(|tokens|, |dists|);
      && (r.Success? <==> RangeScorable(tokens, dists, ctxlen, hi))
      && (r.Success? ==> r.value.logprob == RangeSum(tokens, dists, ctxlen, hi))
  {
    ScoredPositionsByIndex(tokens, dists, ctxlen);
    var ps := ScoredPositions(tokens, dists, ctxlen);
    ContinuationLogprobIsRangeSum(ps, tokens, dists, ctxlen, Min(|tokens|, |dists|), 0);
  }

  /** The success half of `ParseLogprobsSum` on its own. */
  lemma ParseLogprobsScorable(tokens: seq<Token>, dists: seq<Option<Distribution>>, ctxlen: int)
    requires 0 <= ctxlen <= Min(|tokens|, |dists|)
    ensures ParseLogprobs(tokens, dists, ctxlen).Success? <==> RangeScorable(tokens, dists, ctxlen, Min(|tokens|, |dists|))
  {
    ParseLogprobsSum(tokens, dists, ctxlen);
  }

  /** Putting a distribution that holds the token at one position keeps a
      range scorable. */
  lemma ReplaceKeepsScorable(tokens: seq<Token>, dists: seq<Option<Distribution>>, lo: int, hi: int, i: int, d: Distribution)
    requires 0 <= lo <= i < hi <= |tokens| && hi <= |dists|
    requires RangeScorable(tokens, dists, lo, hi)
    requires Get(d, tokens[i]).Some?
    ensures RangeScorable(tokens, dists[i := Some(d)], lo, hi)
  {
    var dists' := dists[i := Some(d)];
    forall j | lo <= j < hi
      ensures dists'[j].Some? && Get(dists'[j].value, tokens[j]).Some?
    {
      if j != i {
        assert dists'[j] == dists[j];
      }
    }
  }

  /** A successful parse is greedy exactly when, at every position from
      `ctxlen` on, the arg-max of the distribution is the realized token. */
  lemma ParseLogprobsGreedy(tokens: seq<Token>, dists: seq<Option<Distribution>>, ctxlen: int)
    requires 0 <= ctxlen <= Min(|tokens|, |dists|)
    requires ParseLogprobs(tokens, dists, ctxlen).Success?
    ensures var hi := Min(|tokens|, |dists|);
      && (forall i :: ctxlen <= i < hi ==> dists[i].Some? && |dists[i].value| > 0)
      && (ParseLogprobs(tokens, dists, ctxlen).value.isGreedy <==>
            forall i :: ctxlen <= i < hi ==> TopToken(dists[i].value) == tokens[i])
  {
    var ps := ScoredPositions(tokens, dists, ctxlen);
    ScoredPositionsByIndex(tokens, dists, ctxlen);
    var hi := Min(|tokens|, |dists|);
    forall i | ctxlen <= i < hi
      ensures dists[i].Some? && |dists[i].value| > 0
      ensures TopToken(dists[i].value) == tokens[i] <==> TopToken(ps[i - ctxlen].1.value) == ps[i - ctxlen].0
    {
      assert ps[i - ctxlen] == (tokens[i], dists[i]);
      assert Scorable(ps[i - ctxlen]);
    }
  }

  /** Replacing one scored position's distribution by one whose arg-max is
      another token (and which still holds the realized token) turns a greedy
      result into a non-greedy one and leaves it scorable. The parse of the
      original lists succeeds, which is `RangeScorable` (`ParseLogprobsScorable`). */
  lemma MismatchBreaksGreedy(
    tokens: seq<Token>, dists: seq<Option<Distribution>>, ctxlen: int, i: int, d: Distribution)
    requires 0 <= ctxlen <= i < Min(|tokens|, |dists|)
    requires RangeScorable(tokens, dists, ctxlen, Min(|tokens|, |dists|))
    requires |d| > 0 && Get(d, tokens[i]).Some? && TopToken(d) != tokens[i]
    ensures var r := ParseLogprobs(tokens, dists[i := Some(d)], ctxlen);
      r.Success? && !r.value.isGreedy
  {
    var hi := Min(|tokens|, |dists|);
    ReplaceKeepsScorable(tokens, dists, ctxlen, hi, i, d);
    ParseLogprobsScorable(tokens, dists[i := Some(d)], ctxlen);
    ParseLogprobsGreedy(tokens, dists[i := Some(d)], ctxlen);
  }

  /** Distributions before `ctxlen` never influence the result. */
  lemma ContextPositionsIgnored(
    tokens: seq<Token>, dists: seq<Option<Distribution>>, dists': seq<Option<Distribution>>, ctxlen: int)
    requires 0 <= ctxlen && |dists| == |dists'|
    requires forall i :: ctxlen <= i < |dists| ==> dists[i] == dists'[i]
    ensures ParseLogprobs(tokens, dists, ctxlen) == ParseLogprobs(tokens, dists', ctxlen)
  {
    assert DropFrom(dists, ctxlen) == DropFrom(dists', ctxlen);
  }
}
