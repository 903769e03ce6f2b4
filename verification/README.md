# Scoring and chat generation of the vLLM model adapter

This project is a Dafny model of the pure logic of the vLLM adapter of the
evaluation harness (`lm_eval/models/vllm_causallms.py`). The engine produces
per-position log-probabilities or generated text. The adapter turns these
into benchmark answers through the steps below, and the model covers each
one:

- **Log-probability decomposition** (`_parse_logprobs`, module `Logprobs`).
  - The engine's `prompt_logprobs` become a continuation log-probability and
    a greedy flag.
  - A distribution is the ordered list of its candidates, because a Python
    dictionary keeps insertion order. So `max(d, key=d.get)` is the first
    candidate with the maximal score.
  - A dictionary holds each token once (`DistinctTokens`). The list type
    admits repeats; on such a list the lookup answers with the first
    candidate carrying the token, and the arg-max compares the candidates'
    own scores, so the two agree with Python only on distinct tokens.
  - The two ways the sum can raise are errors, not preconditions:
    `.get` on a missing distribution, and a token absent from its
    distribution.
- **Truncation and request encoding** (`_loglikelihood_tokens`,
  `_encode_pair`, `loglikelihood`, `prefix_token_id`, module `Loglikelihood`).
  - The tokenizer and the engine are function parameters.
  - `_loglikelihood_tokens` scores each request independently and returns
    the answers in request order. It is modelled for any per-request scorer.
- **Rolling log-likelihood** (`loglikelihood_rolling`, module `Rolling`).
  Windows of all strings are flattened and scored in batches of the batch
  size. The results are then cut again by each string's window count and
  summed.
- **Generation settings** (`modify_gen_kwargs`, and the way `generate_until`
  hands a request's settings to `_model_chat`, module `GenKwargs`).
- **Chat generation** (`generate_until`, module `Generation`).
  - The conversation is built from the few-shot data, with every content
    stripped.
  - The reasoning block ending at the last `</think>` is split off the
    answer.
  - Per-answer statistics are recorded.
- **Python helpers**. Module `PySeq` has slicing with negative and clamped
  bounds, `zip` and `sum`. Module `PyText` has `str.isspace`, `rstrip`,
  `lstrip`, `strip`, `in` and `rfind`.

`_parse_logprobs` assumes `ctxlen >= 1` (line 773). The model also covers the
cases where that does not hold, and states what the code then does:

- A continuation longer than the maximum length makes `ctxlen` negative.
  Python then reads `tokens[ctxlen:]` from the end of the input, so only the
  last `min(|continuation| - max_length, max_length)` positions are scored
  (`LongContinuationScoredFrom`).
- A continuation of exactly the maximum length, or at least twice it, gets
  position 0 scored. The engine gives no distribution there, so the request
  raises (`LongContinuationFails`).
- A context that encodes to no tokens, with a continuation that fits in the
  maximum length, makes `ctxlen` 0: position 0 is scored and the request
  raises the same way (`EmptyContextFails`). With a longer continuation such
  a request falls under the two cases above.

In the chat path, the caller's stop sequences never reach the engine, and
neither does the end-of-text token that `generate_until` adds to them.
`_model_chat` fixes `stop=None` and `max_tokens=2048`, and the model follows
that code.

## Model

| member | source | states |
|---|---|---|
| Logprobs.Get | lm_eval/models/vllm_causallms.py:775-776 | `d.get(t)` finds nothing exactly when no candidate carries `t`, and otherwise gives the score of the first candidate carrying `t` |
| Logprobs.GetCandidate | lm_eval/models/vllm_causallms.py:775-776 | on a dictionary's candidates (no token twice), looking up a candidate's token gives that candidate's score |
| Logprobs.TopIndex | lm_eval/models/vllm_causallms.py:788 | `max(d, key=d.get)` picks a candidate whose score is at least every other and strictly above every earlier one |
| Logprobs.TopTokenIsFirstMax | lm_eval/models/vllm_causallms.py:788 | the arg-max is token `t` iff `t` sits at the first maximal score (both directions) |
| Logprobs.FirstMaxUnique | lm_eval/models/vllm_causallms.py:788 | there is only one first maximal candidate, so the arg-max is well defined |
| Logprobs.ContinuationLogprob | lm_eval/models/vllm_causallms.py:774-779 | the sum succeeds iff every scored position has a distribution holding its token; on failure it names the first bad position and whether its distribution was missing |
| Logprobs.Greedy | lm_eval/models/vllm_causallms.py:782-791 | the greedy loop returns true iff every position with a non-empty distribution has the realized token as its arg-max; missing and empty distributions are skipped |
| Logprobs.ParsePositions | lm_eval/models/vllm_causallms.py:774-793 | success iff every paired position is scorable; the greedy flag then holds iff each arg-max is the realized token |
| Logprobs.ParseLogprobs | lm_eval/models/vllm_causallms.py:733-793 | the same, over `zip(tokens[ctxlen:], dists[ctxlen:])` |
| Logprobs.ScoredPositionsByIndex | lm_eval/models/vllm_causallms.py:775-778 | with `ctxlen >= 0`, the zipped positions are `ctxlen` up to the shorter list, each token paired with its own distribution |
| Logprobs.ContinuationLogprobIsRangeSum | lm_eval/models/vllm_causallms.py:774-779 | the generator sum equals the direct sum of `dists[i][tokens[i]]` over the range, and succeeds exactly when that range is scorable |
| Logprobs.ParseLogprobsSum | lm_eval/models/vllm_causallms.py:774-779 | the continuation log-probability is the sum of `dists[i][tokens[i]]` for `ctxlen <= i < min(len(tokens), len(dists))`, and parsing succeeds iff all those lookups exist |
| Logprobs.ParseLogprobsScorable | lm_eval/models/vllm_causallms.py:774-779 | parsing succeeds iff every position from `ctxlen` to the end of the shorter list is scorable |
| Logprobs.ReplaceKeepsScorable | lm_eval/models/vllm_causallms.py:774-779 | swapping in a distribution that still holds the token keeps a range scorable |
| Logprobs.ParseLogprobsGreedy | lm_eval/models/vllm_causallms.py:782-793 | a successful parse is greedy iff at every position from `ctxlen` on, the arg-max is the realized token |
| Logprobs.MismatchBreaksGreedy | lm_eval/models/vllm_causallms.py:787-791 | replacing one scored position's distribution by one whose arg-max is another token leaves the parse successful and makes it non-greedy |
| Logprobs.ContextPositionsIgnored | lm_eval/models/vllm_causallms.py:775-786 | distributions before `ctxlen` never change the result |
| Loglikelihood.Truncate | lm_eval/models/vllm_causallms.py:702-705 | the input is the last `min(max_length, total)` tokens of context plus continuation, and `ctxlen` is the input length minus the continuation length |
| Loglikelihood.TruncateKeepsContinuation | lm_eval/models/vllm_causallms.py:702-705 | when the continuation fits, `0 <= ctxlen <= len(inp) <= max_length` and `inp[ctxlen:]` is exactly the continuation |
| Loglikelihood.TruncateFitting | lm_eval/models/vllm_causallms.py:702-705 | a pair that fits passes through unchanged, with `ctxlen` equal to the context length |
| Loglikelihood.LongContinuationScoredFrom | lm_eval/models/vllm_causallms.py:702-705 | a continuation longer than `max_length` gives a negative `ctxlen`, and scoring starts at `max(2*max_length - len(cont), 0)` |
| Loglikelihood.LongContinuationFails | lm_eval/models/vllm_causallms.py:702-705 | a continuation of exactly `max_length`, or at least twice it, scores position 0 and fails on its missing distribution |
| Loglikelihood.EmptyContextFails | lm_eval/models/vllm_causallms.py:702-705 | an empty context encoding scores position 0 and fails on its missing distribution |
| Loglikelihood.ShiftWhitespace | lm_eval/models/vllm_causallms.py:346-349 | the two parts concatenate back to context plus continuation; the context part is `rstrip(context)`; only whitespace moves; a context without trailing whitespace is unchanged |
| Loglikelihood.EncodePair | lm_eval/models/vllm_causallms.py:343-356 | the context encoding is that of the stripped context; the continuation encoding is the whole encoding after as many tokens (clamped) |
| Loglikelihood.EncodePairSplitsWhole | lm_eval/models/vllm_causallms.py:351-356 | when the context tokens prefix the whole encoding, the two parts concatenate to it |
| Loglikelihood.EncodeRequest | lm_eval/models/vllm_causallms.py:360-368 | an empty context becomes the end-of-text token alone with the continuation encoded on its own; otherwise the pair is encoded by `_encode_pair` |
| Loglikelihood.PrefixTokenId | lm_eval/models/vllm_causallms.py:186-192 | a configured id wins, then the beginning-of-text id, then the end-of-text id |
| Loglikelihood.ScoreTokens | lm_eval/models/vllm_causallms.py:699-717 | one request is cut, run and parsed; with at least one context token, a fitting continuation and one distribution per input token, it succeeds iff every continuation position is scorable, and scores the sum over exactly the continuation |
| Loglikelihood.ScoreTokensSumsContinuation | lm_eval/models/vllm_causallms.py:699-717 | with at least one context token and a fitting continuation, a request succeeds iff every continuation position is scorable, and scores the sum over exactly the continuation |
| Loglikelihood.LoglikelihoodTokens | lm_eval/models/vllm_causallms.py:676-730 | the answers come back one per request in request order; the call succeeds iff every request scores, and a failure is some request's failure |
| Loglikelihood.LoglikelihoodTokensAppend | lm_eval/models/vllm_causallms.py:676-730 | scoring two request lists together succeeds iff both do, with the answers concatenated |
| Loglikelihood.Loglikelihood | lm_eval/models/vllm_causallms.py:358-372 | the call succeeds iff every request's encoded pair scores; then each answer is that score, one per request, in order; a failure is one request's failure |
| Rolling.Step | lm_eval/models/vllm_causallms.py:377-413 | "auto" steps by the request count and raises on zero requests; a fixed size steps by itself; a zero step raises |
| Rolling.BatchesFrom | lm_eval/models/vllm_causallms.py:413-414 | the batches concatenate to the rest of the list; each holds 1 to k items and all but the last exactly k |
| Rolling.Batches | lm_eval/models/vllm_causallms.py:413-414 | for a positive step the batches cover every window once, in order; a negative step gives no batches |
| Rolling.ScoreEach | lm_eval/models/vllm_causallms.py:413-424 | scoring batch by batch succeeds iff scoring the whole list does, each batch gets its own answers, and the answers concatenate to the whole list's |
| Rolling.Regroup | lm_eval/models/vllm_causallms.py:426-434 | the reconstruction loop gives one total per request |
| Rolling.RegroupAt | lm_eval/models/vllm_causallms.py:426-434 | request `j`'s total is the sum of the `counts[j]` results starting where the first `j` requests' results end, with Python's slice clamping |
| Rolling.RegroupGroups | lm_eval/models/vllm_causallms.py:426-434 | cutting a flattened list by its parts' lengths and summing gives each part's sum |
| Rolling.RegroupEmpty | lm_eval/models/vllm_causallms.py:426-434 | with no results, every request totals zero |
| Rolling.LoglikelihoodRolling | lm_eval/models/vllm_causallms.py:374-441 | one total and one cache entry `(string, total)` per string, in order; a bad batch size raises before anything is scored |
| Rolling.RollingByString | lm_eval/models/vllm_causallms.py:411-434 | for a positive step, batching changes nothing: same success and same totals as scoring string by string |
| Rolling.RegroupByString | lm_eval/models/vllm_causallms.py:426-434 | regrouping the flat per-string results gives each string's own sum |
| Rolling.ScoreEachAllGroups | lm_eval/models/vllm_causallms.py:413-424 | if every group scores on its own, scoring all of them succeeds |
| Rolling.RollingTotals | lm_eval/models/vllm_causallms.py:411-434 | succeeds iff every string's windows score, and each total is the sum of that string's window log-probabilities, whatever the batch size |
| Rolling.GrandTotal | lm_eval/models/vllm_causallms.py:411-434 | the sum of the totals is the sum over all windows |
| Rolling.NegativeBatchSizeScoresNothing | lm_eval/models/vllm_causallms.py:412-434 | a negative batch size scores nothing and every string totals zero |
| GenKwargs.DropNone | lm_eval/models/vllm_causallms.py:810-813 | a key is dropped exactly when it holds `None`; nothing else changes |
| GenKwargs.ModifyGenKwargs | lm_eval/models/vllm_causallms.py:796-815 | no `do_sample` in the result; `temperature` becomes 0.0 only when `do_sample` was exactly `False` and none was given; `top_k`/`top_p` holding `None` are removed; every other key keeps its value |
| GenKwargs.ModifyGenKwargsIdempotent | lm_eval/models/vllm_causallms.py:796-815 | applying the conversion twice is applying it once |
| GenKwargs.ChatSamplingParams | lm_eval/models/vllm_causallms.py:316-328 | non-dictionary settings raise the `ValueError`; a setting named like one of `_model_chat`'s own parameters, `self` included, raises the duplicate-keyword `TypeError`; otherwise the engine gets 2048 tokens, no stop list, and the converted settings without `until` and `max_gen_toks` |
| GenKwargs.StopAndLengthIgnored | lm_eval/models/vllm_causallms.py:536-556 | two settings that differ only in `until` and `max_gen_toks` give the same sampling parameters |
| Generation.ShotMessages | lm_eval/models/vllm_causallms.py:518-520 | `2k` messages for `k` pairs, the user question then the assistant answer of each pair in order, roles alternating |
| Generation.BuildConversation | lm_eval/models/vllm_causallms.py:514-521 | `2 + 2k` messages: system with the fixed description, the fixed pairs as user/assistant in order, and a final user message with the fixed example; roles alternate after the system message |
| Generation.ShotMessagesFixed | lm_eval/models/vllm_causallms.py:518-520 | pairs that `fix` leaves alone give messages that `fix` leaves alone |
| Generation.ConversationFixed | lm_eval/models/vllm_causallms.py:514-521 | with an idempotent `fix`, every message content is a fixed point of `fix` |
| Generation.ConversationStripped | lm_eval/models/vllm_causallms.py:517-521 | with `fix_text = strip`, every content is already stripped |
| Generation.SplitReasoning | lm_eval/models/vllm_causallms.py:563-567 | without `</think>` the text is unchanged and there is no reasoning; with it, the text is cut after the last occurrence, both parts stripped, the answer free of `</think>` and the reasoning ending in it |
| Generation.SplitAtLast | lm_eval/models/vllm_causallms.py:565-567 | the same split for any delimiter that neither starts nor ends with whitespace |
| Generation.SplitAtLastEnd | lm_eval/models/vllm_causallms.py:566-567 | the unstripped parts concatenate back to the text; the first ends with the delimiter and the second does not contain it |
| Generation.Stats | lm_eval/models/vllm_causallms.py:568-571 | the statistics always hold the prompt, and hold the reasoning exactly when there is one |
| Generation.GenerateOne | lm_eval/models/vllm_causallms.py:509-571 | one request fails exactly when its settings are rejected |
| Generation.GenerateAll | lm_eval/models/vllm_causallms.py:470-587 | an empty request list raises; otherwise the call succeeds iff every request does, the answers come back in request order, and a failure is some request's failure |
| Generation.GenerateUntil | lm_eval/models/vllm_causallms.py:444-587 | `generate_until` fails only on an empty list or rejected settings, and answers each request with its own conversation and settings |
| Generation.GeneratedAnswers | lm_eval/models/vllm_causallms.py:561-575 | each answer is free of `</think>`; its statistics carry reasoning iff the engine's text held `</think>`; the prompt is recorded; a text without `</think>` is returned as is |
| Generation.AnswerIgnoresStopAndLength | lm_eval/models/vllm_causallms.py:536-556 | a request's `until` and `max_gen_toks` never change its answer |
| PyText.RStripSpec | lm_eval/models/vllm_causallms.py:346 | `rstrip` keeps a prefix that does not end in whitespace and drops only whitespace |
| PyText.LStripSpec | lm_eval/models/vllm_causallms.py:178 | `lstrip` keeps a suffix that does not start with whitespace and drops only whitespace |
| PyText.StripSpec | lm_eval/models/vllm_causallms.py:178 | `strip` keeps the slice between leading and trailing whitespace, and that slice neither starts nor ends with whitespace |
| PyText.StripIdempotent | lm_eval/models/vllm_causallms.py:178 | stripping twice is stripping once |
| PyText.EndsWithKeptByStrip | lm_eval/models/vllm_causallms.py:566 | stripping keeps a suffix that neither starts nor ends with whitespace |
| PyText.NoOccurrenceInStrip | lm_eval/models/vllm_causallms.py:567 | stripping cannot create an occurrence of a pattern |
| PyText.RFind | lm_eval/models/vllm_causallms.py:566-567 | `rfind` gives the start of the last occurrence, and finds none iff the pattern does not occur |

## Left out

- The engine, `SamplingParams` and LoRA set-up, the `generate` and `chat` calls, and the Ray data-parallel fan-out (lines 56-176 and 259-341): these are engine plumbing, foreign calls and concurrency. The engine enters as a function from an input to its per-position distributions, and the chat engine as a function from a conversation and sampling parameters to a response.
- The tokenizer, `apply_chat_template`, `tok_encode`'s special-token setting and the engine-dependent branches of `max_length`: these are library state. The tokenizer is a function parameter, and `max_length` is a number.
- `Collator`, `get_rolling_token_windows`, `make_disjoint_window` and `handle_stop_sequences`: they live in files that are not part of this model.
  - The collator's reorder-and-restore is modelled by its visible effect: answers come back in request order.
  - Windowing is the `windowsOf` parameter.
  - The result of `handle_stop_sequences` never reaches the engine in the chat path.
- GenKwargs.ChatSamplingParams: it assumes that `handle_stop_sequences` (line 537) accepts every `until` value, because that function is not part of this model. Where it raises, for instance on an `until` that is neither a string, a list nor None, the model still answers. GenKwargs.StopAndLengthIgnored and Generation.AnswerIgnoresStopAndLength hold under this assumption.
- Loglikelihood.LoglikelihoodTokens: the failure it reports is some request's error. It does not say which one, because the collator's processing order is not visible.
- Generation.GenerateAll: the same applies to which request's rejected settings are reported.
- Generation.GenerateAll: the grouping of requests into chunks is left out. The model answers request by request, which is what the code does once the grouping guarantees that a chunk shares one settings dictionary.
- A batch size that is neither "auto" nor an integer makes `int()` raise. The batch size type does not admit such values.
- The `None` that heads each rolling window is the `cache_key` of `_loglikelihood_tokens` (lines 701 and 712). Line 723 tests it to skip the per-window cache write. It is left out together with the other cache writes below.
- Cache writes (`cache_hook.add_partial`) for `loglikelihood` and `generate_until`, progress bars and logging are left out; they are side effects. Rolling.LoglikelihoodRolling returns its cache entries as a list.
- Log-probabilities are exact reals; floating-point rounding of the sums is not modelled.
- `old_generate_until` (lines 589-672) is the legacy generation path, not the live one.
- `_model_chat`'s `del kwargs['max_tokens']` cannot run. `max_tokens` is a named parameter of `_model_chat`, so it can never be in `**kwargs`.
- The tokenizer's decoding of the end-of-text token is left out; only `handle_stop_sequences` uses it.
