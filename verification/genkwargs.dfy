/** Generation keyword arguments: `modify_gen_kwargs`, which turns a task's
    Hugging Face style settings into the engine's, and the way
    `generate_until` passes one request's settings through `_model_chat` to
    the engine's sampling parameters. */
module GenKwargs {
  import opened Wrappers

  /** The Python values a settings dictionary can hold. */
  datatype PyValue =
    | PyNone
    | PyBool(b: bool)
    | PyInt(i: int)
    | PyFloat(f: real)
    | PyStr(s: string)
    | PyList(items: seq<PyValue>)

  /** A keyword dictionary; only keys and values matter here, not their order. */
  type Kwargs = map<string, PyValue>

  /** `do_sample is False`: the boolean `False` itself, not just a falsy value. */
  predicate DoSampleIsFalse(kw: Kwargs)
  {
    "do_sample" in kw && kw["do_sample"] == PyBool(false)
  }

  /** Drops `key` when it is present with the value `None`. */
  function DropNone(kw: Kwargs, key: string): (r: Kwargs)
    ensures key in r <==> key in kw && kw[key] != PyNone
    ensures forall k :: k in kw && k != key ==> k in r && r[k] == kw[k]
    ensures forall k :: k in r ==> k in kw && r[k] == kw[k]
  {
    if key in kw && kw[key] == PyNone then kw - {key} else kw
  }

  /** `modify_gen_kwargs`: removes `do_sample`; sets `temperature` to 0.0
      when `do_sample` was `False` and no temperature was given; removes
      `top_k` and `top_p` when they are `None`. */
  function ModifyGenKwargs(kw: Kwargs): (r: Kwargs)
    ensures "do_sample" !in r
    ensures "temperature" in r <==> "temperature" in kw || DoSampleIsFalse(kw)
    ensures "temperature" in kw ==> r["temperature"] == kw["temperature"]
    ensures "temperature" !in kw && DoSampleIsFalse(kw) ==> r["temperature"] == PyFloat(0.0)
    ensures "top_k" in r <==> "top_k" in kw && kw["top_k"] != PyNone
    ensures "top_p" in r <==> "top_p" in kw && kw["top_p"] != PyNone
    ensures forall k :: k in r && k != "temperature" ==> k in kw && r[k] == kw[k]
    ensures forall k :: k in kw && k !in {"do_sample", "top_k", "top_p"} ==> k in r && r[k] == kw[k]
  {
    var popped := kw - {"do_sample"};
    var tempered :=
      if DoSampleIsFalse(kw) && "temperature" !in popped then popped["temperature" := PyFloat(0.0)]
      else popped;
    DropNone(DropNone(tempered, "top_k"), "top_p")
  }

  /** Applying the conversion to its own output changes nothing. */
  lemma ModifyGenKwargsIdempotent(kw: Kwargs)
    ensures ModifyGenKwargs(ModifyGenKwargs(kw)) == ModifyGenKwargs(kw)
  {
    var once := ModifyGenKwargs(kw);
    var twice := ModifyGenKwargs(once);
    assert forall k :: k in twice <==> k in once;
    assert forall k :: k in twice ==> twice[k] == once[k];
  }

  // ---- From a request's settings to the engine's sampling parameters ----

  /** `_DEFAULT_MAX_GEN_TOKENS`. */
  const DefaultMaxGenTokens: int := 2048

  /** The named parameters of the bound method `_model_chat`: `self`, bound
      by the call, and the four keywords `generate_until` passes by name. A
      settings key with one of these names gives the parameter two values. */
  const NamedArguments: set<string> := {"self", "requests", "generate", "max_tokens", "stop"}

  /** A request's generation settings as given: a dictionary or anything else. */
  datatype GenArgs = KwDict(kw: Kwargs) | NotADict

  datatype CallError =
    | NotADictError      // the ValueError `generate_until` raises
    | DuplicateKeyword   // the TypeError of a keyword passed twice

  datatype SamplingParams = SamplingParams(maxTokens: int, stop: Option<seq<string>>, extra: Kwargs)

  /** What `generate_until` leaves of the settings after popping `until` and
      `max_gen_toks`, and what `_model_chat` builds from that. */
  function ChatSamplingParams(args: GenArgs): (r: Result<SamplingParams, CallError>)
    ensures r == Failure(NotADictError) <==> args.NotADict?
    ensures r == Failure(DuplicateKeyword) <==>
      args.KwDict? && exists k :: k in NamedArguments && k in args.kw
    ensures r.Success? ==> r.value.maxTokens == DefaultMaxGenTokens && r.value.stop.None?
    ensures r.Success? ==> "until" !in r.value.extra && "max_gen_toks" !in r.value.extra
    ensures r.Success? ==> r.value.extra == ModifyGenKwargs(args.kw - {"until", "max_gen_toks"})
  {
    match args
    case NotADict => Failure(NotADictError)
    case KwDict(kw) =>
      var rest := kw - {"until", "max_gen_toks"};
      if exists k :: k in NamedArguments && k in rest then Failure(DuplicateKeyword)
      else Success(SamplingParams(DefaultMaxGenTokens, None, ModifyGenKwargs(rest)))
  }

  /** The request's `until` and `max_gen_toks` never reach the engine: two
      settings that differ only there give the same sampling parameters. */
  lemma StopAndLengthIgnored(kw1: Kwargs, kw2: Kwargs)
    requires forall k :: k !in {"until", "max_gen_toks"} ==> (k in kw1 <==> k in kw2)
    requires forall k :: k !in {"until", "max_gen_toks"} && k in kw1 ==> kw1[k] == kw2[k]
    ensures ChatSamplingParams(KwDict(kw1)) == ChatSamplingParams(KwDict(kw2))
  {
    assert kw1 - {"until", "max_gen_toks"} == kw2 - {"until", "max_gen_toks"};
  }
}
