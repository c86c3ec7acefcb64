/**
  The request handling both server revisions share: the provenance metadata
  is accumulated as an ordered list of text chunks, the prompt is optionally
  elaborated, and the pipeline's keyword arguments start from fixed defaults,
  onto which `maybe_add` copies the seven optional request fields that are present.
*/
module Generation {
  import opened Wrappers
  import opened PyText

  const Base: string := "stabilityai/stable-diffusion-xl-base-1.0"
  const Repo: string := "ByteDance/SDXL-Lightning"

  // ------------------------------------------------------------ checkpoint

  /** `f"sdxl_lightning_{steps}step_unet.safetensors"`, or `..._lora.safetensors`. */
  function CheckpointName(steps: nat, useUnet: bool): string {
    "sdxl_lightning_" + (NatToString(steps) + ("step_" + (if useUnet then "unet" else "lora") + ".safetensors"))
  }

  lemma DigitsPrefix(d1: string, t1: string, d2: string, t2: string)
    requires forall i :: 0 <= i < |d1| ==> IsDigit(d1[i])
    requires forall i :: 0 <= i < |d2| ==> IsDigit(d2[i])
    requires |t1| > 0 && !IsDigit(t1[0]) && |t2| > 0 && !IsDigit(t2[0])
    requires d1 + t1 == d2 + t2
    ensures d1 == d2 && t1 == t2
  {
    var s := d1 + t1;
    assert !IsDigit(s[|d1|]) && !IsDigit((d2 + t2)[|d2|]);
    assert forall i :: 0 <= i < |d2| ==> IsDigit(s[i]);
    assert forall i :: 0 <= i < |d1| ==> IsDigit(s[i]);
    assert |d1| == |d2|;
    assert d1 == s[..|d1|] && d2 == s[..|d2|];
    assert t1 == s[|d1|..] && t2 == s[|d2|..];
  }

  lemma SamePrefixSameRest<T>(p: seq<T>, a: seq<T>, b: seq<T>)
    requires p + a == p + b
    ensures a == b
  {
    assert a == (p + a)[|p|..];
    assert b == (p + b)[|p|..];
  }

  /** A checkpoint name determines the step count and the variant it was made from. */
  lemma CheckpointNameInjective(m: nat, u: bool, n: nat, v: bool)
    requires CheckpointName(m, u) == CheckpointName(n, v)
    ensures m == n && u == v
  {
    var head := "sdxl_lightning_";
    var t1 := "step_" + (if u then "unet" else "lora") + ".safetensors";
    var t2 := "step_" + (if v then "unet" else "lora") + ".safetensors";
    SamePrefixSameRest(head, NatToString(m) + t1, NatToString(n) + t2);
    DigitsPrefix(NatToString(m), t1, NatToString(n), t2);
    NatToStringInjective(m, n);
    assert t1[5] == (if u then 'u' else 'l');
    assert t2[5] == (if v then 'u' else 'l');
  }

  /** The name of the 8-step UNet checkpoint. */
  lemma EightStepUnet()
    ensures CheckpointName(8, true) == "sdxl_lightning_8step_unet.safetensors"
  {
    assert NatToString(8) == "8";
    UnetSuffix();
    EightStepSuffix();
    FullName();
  }

  lemma UnetSuffix()
    ensures "step_" + "unet" + ".safetensors" == "step_unet.safetensors"
  {
  }

  lemma EightStepSuffix()
    ensures "8" + "step_unet.safetensors" == "8step_unet.safetensors"
  {
  }

  lemma FullName()
    ensures "sdxl_lightning_" + "8step_unet.safetensors" == "sdxl_lightning_8step_unet.safetensors"
  {
  }

  /** The fixed provenance entries, in their dictionary order. */
  function DefaultMetadata(ckpt: string): seq<(string, string)> {
    [("base", Base), ("repo", Repo), ("ckpt", ckpt)]
  }

  // ------------------------------------------------------------ keyword arguments

  /** The conversion `maybe_add` applies: `str`, `int` or `float`. */
  datatype Conv = AsStr | AsInt | AsFloat

  /** A keyword argument for the pipeline. */
  datatype Arg = StrArg(s: string) | IntArg(i: int) | FloatArg(f: real)

  /** The posted form: a field that is absent is `None` for `params.get`. */
  type Params = map<string, string>

  type Kwargs = map<string, Arg>

  /** Why a request fails before the pipeline runs. */
  datatype Failure =
    | MissingPrompt          // `add_text` is given `None` for the prompt
    | ElaborationFailed      // the elaboration call raised
    | BadParameter(key: string)  // the conversion of that field raised `ValueError`

  /** `conv(v)`; `float` is a parameter of the model. */
  function Convert(c: Conv, v: string, toFloat: string -> Option<real>): Option<Arg> {
    match c
    case AsStr => Some(StrArg(v))
    case AsInt => (match ParseInt(v) case Some(i) => Some(IntArg(i)) case None => None)
    case AsFloat => (match toFloat(v) case Some(f) => Some(FloatArg(f)) case None => None)
  }

  /** The fields `maybe_add` is applied to, in order, with their conversions. */
  const OptionalKeys: seq<(string, Conv)> := [
    ("prompt_2", AsStr), ("negative_prompt", AsStr), ("negative_prompt_2", AsStr),
    ("width", AsInt), ("height", AsInt), ("denoising_end", AsFloat), ("guidance_scale", AsFloat)]

  /** `dict(num_inference_steps=steps, guidance_scale=0)`. */
  function InitialKwargs(steps: int): Kwargs {
    map["num_inference_steps" := IntArg(steps), "guidance_scale" := IntArg(0)]
  }

  /** The dictionary after `maybe_add(kwargs, params, k, conv)`, or the
      `ValueError` of the conversion. */
  function Added(kwargs: Kwargs, params: Params, k: string, c: Conv, toFloat: string -> Option<real>)
    : Result<Kwargs, Failure>
  {
    if k !in params then Ok(kwargs)
    else
      match Convert(c, params[k], toFloat)
      case Some(a) => Ok(kwargs[k := a])
      case None => Err(BadParameter(k))
  }

  /** `maybe_add` sets `k` to the converted value exactly when the request has
      `k`, fails only when that conversion raises, and changes no other key. */
  lemma AddedFacts(kwargs: Kwargs, params: Params, k: string, c: Conv, toFloat: string -> Option<real>)
    ensures var r := Added(kwargs, params, k, c, toFloat);
      && (r.Ok? <==> k !in params || Convert(c, params[k], toFloat).Some?)
      && (r.Err? ==> r.error == BadParameter(k))
      && (r.Ok? ==> r.value.Keys == kwargs.Keys + (if k in params then {k} else {}))
      && (r.Ok? ==> forall j :: j in kwargs && j != k ==> r.value[j] == kwargs[j])
      && (r.Ok? && k in params ==> r.value[k] == Convert(c, params[k], toFloat).value)
      && (r.Ok? && k !in params ==> r.value == kwargs)
  {
  }

  /** `maybe_add` applied to each of `keys` in turn; the first conversion that
      raises ends the request. */
  function AddAll(kwargs: Kwargs, params: Params, keys: seq<(string, Conv)>, toFloat: string -> Option<real>)
    : Result<Kwargs, Failure>
    decreases |keys|
  {
    if keys == [] then Ok(kwargs)
    else
      match Added(kwargs, params, keys[0].0, keys[0].1, toFloat)
      case Err(e) => Err(e)
      case Ok(next) => AddAll(next, params, keys[1..], toFloat)
  }

  ghost predicate DistinctNames(keys: seq<(string, Conv)>) {
    forall i, j :: 0 <= i < j < |keys| ==> keys[i].0 != keys[j].0
  }

  ghost function Names(keys: seq<(string, Conv)>): set<string> {
    set i | 0 <= i < |keys| :: keys[i].0
  }

  predicate Fails(key: (string, Conv), params: Params, toFloat: string -> Option<real>) {
    key.0 in params && Convert(key.1, params[key.0], toFloat).None?
  }

  /** The successive `maybe_add` calls fail exactly when some present field does
      not convert, and then with the error of the first such field. */
  lemma {:induction false} AddAllFailure(kwargs: Kwargs, params: Params, keys: seq<(string, Conv)>,
                                         toFloat: string -> Option<real>)
    decreases |keys|
    ensures var r := AddAll(kwargs, params, keys, toFloat);
      && (r.Err? <==> exists i :: 0 <= i < |keys| && Fails(keys[i], params, toFloat))
      && (r.Err? ==> exists i :: 0 <= i < |keys| && Fails(keys[i], params, toFloat)
                       && r.error == BadParameter(keys[i].0)
                       && forall j :: 0 <= j < i ==> !Fails(keys[j], params, toFloat))
  {
    if keys != [] {
      var step := Added(kwargs, params, keys[0].0, keys[0].1, toFloat);
      var rest := keys[1..];
      if step.Err? {
        assert Fails(keys[0], params, toFloat);
      } else {
        AddAllFailure(step.value, params, rest, toFloat);
        var r := AddAll(step.value, params, rest, toFloat);
        assert AddAll(kwargs, params, keys, toFloat) == r;
        if r.Err? {
          var i :| 0 <= i < |rest| && Fails(rest[i], params, toFloat)
                   && r.error == BadParameter(rest[i].0)
                   && forall j :: 0 <= j < i ==> !Fails(rest[j], params, toFloat);
          assert keys[i + 1] == rest[i];
          forall j | 0 <= j < i + 1 ensures !Fails(keys[j], params, toFloat) {
            if j > 0 { assert keys[j] == rest[j - 1]; }
          }
        } else {
          forall i | 0 <= i < |keys| ensures !Fails(keys[i], params, toFloat) {
            if i > 0 { assert keys[i] == rest[i - 1]; }
          }
        }
      }
    }
  }

  /** When they succeed, the successive `maybe_add` calls add exactly the listed
      fields the request has. */
  lemma {:induction false} AddAllKeys(kwargs: Kwargs, params: Params, keys: seq<(string, Conv)>,
                                      toFloat: string -> Option<real>)
    requires AddAll(kwargs, params, keys, toFloat).Ok?
    decreases |keys|
    ensures AddAll(kwargs, params, keys, toFloat).value.Keys == kwargs.Keys + (Names(keys) * params.Keys)
  {
    if keys == [] {
      assert Names(keys) == {};
    } else {
      var k := keys[0];
      var rest := keys[1..];
      assert Names(keys) == {k.0} + Names(rest) by {
        forall n | n in Names(keys) ensures n in {k.0} + Names(rest) {
          var i :| 0 <= i < |keys| && keys[i].0 == n;
          if i > 0 { assert rest[i - 1] == keys[i]; }
        }
        forall n | n in Names(rest) ensures n in Names(keys) {
          var i :| 0 <= i < |rest| && rest[i].0 == n;
          assert keys[i + 1] == rest[i];
        }
      }
      var next := Added(kwargs, params, k.0, k.1, toFloat).value;
      AddAllKeys(next, params, rest, toFloat);
    }
  }

  /** A key the fold does not set keeps its value: it is not among the keys, or
      the request does not have it. */
  lemma {:induction false} AddAllKeeps(kwargs: Kwargs, params: Params, keys: seq<(string, Conv)>,
                                       toFloat: string -> Option<real>, j: string)
    requires AddAll(kwargs, params, keys, toFloat).Ok?
    requires j in kwargs
    requires j !in params || j !in Names(keys)
    ensures var r := AddAll(kwargs, params, keys, toFloat).value;
      j in r && r[j] == kwargs[j]
    decreases |keys|
  {
    if keys != [] {
      var next := Added(kwargs, params, keys[0].0, keys[0].1, toFloat).value;
      NamesOfTail(keys);
      AddAllKeeps(next, params, keys[1..], toFloat, j);
    }
  }

  lemma NamesOfTail(keys: seq<(string, Conv)>)
    requires keys != []
    ensures keys[0].0 in Names(keys) && Names(keys[1..]) <= Names(keys)
  {
    forall n | n in Names(keys[1..]) ensures n in Names(keys) {
      var i :| 0 <= i < |keys| - 1 && keys[1..][i].0 == n;
      assert keys[i + 1] == keys[1..][i];
    }
  }

  /** Each key the request has ends up converted, when the keys are distinct. */
  lemma {:induction false} AddAllConverts(kwargs: Kwargs, params: Params, keys: seq<(string, Conv)>,
                                          toFloat: string -> Option<real>, i: nat)
    requires DistinctNames(keys)
    requires AddAll(kwargs, params, keys, toFloat).Ok?
    requires i < |keys| && keys[i].0 in params
    ensures var r := AddAll(kwargs, params, keys, toFloat).value;
      keys[i].0 in r && Convert(keys[i].1, params[keys[i].0], toFloat) == Some(r[keys[i].0])
    decreases |keys|
  {
    var next := Added(kwargs, params, keys[0].0, keys[0].1, toFloat).value;
    var rest := keys[1..];
    assert forall m :: 0 <= m < |rest| ==> rest[m] == keys[m + 1];
    if i == 0 {
      AddAllKeeps(next, params, rest, toFloat, keys[0].0);
    } else {
      assert rest[i - 1] == keys[i];
      AddAllConverts(next, params, rest, toFloat, i - 1);
    }
  }

  /** The pipeline's keyword arguments for a request. */
  function FinalKwargs(params: Params, steps: int, toFloat: string -> Option<real>): Result<Kwargs, Failure> {
    AddAll(InitialKwargs(steps), params, OptionalKeys, toFloat)
  }

  ghost const OptionalNames: set<string> :=
    {"prompt_2", "negative_prompt", "negative_prompt_2", "width", "height", "denoising_end", "guidance_scale"}

  /** The optional fields are seven distinct names. */
  lemma OptionalKeysDistinct()
    ensures DistinctNames(OptionalKeys)
  {
    OptionalKeysNamed();
  }

  lemma OptionalKeysNames()
    ensures Names(OptionalKeys) == OptionalNames
  {
    OptionalKeysNamed();
  }

  lemma OptionalKeysNamed()
    ensures OptionalKeys[0].0 == "prompt_2" && OptionalKeys[1].0 == "negative_prompt"
    ensures OptionalKeys[2].0 == "negative_prompt_2" && OptionalKeys[3].0 == "width"
    ensures OptionalKeys[4].0 == "height" && OptionalKeys[5].0 == "denoising_end"
    ensures OptionalKeys[6].0 == "guidance_scale"
  {
    assert OptionalKeys[0].0 == "prompt_2";
    assert OptionalKeys[1].0 == "negative_prompt";
    assert OptionalKeys[2].0 == "negative_prompt_2";
    assert OptionalKeys[3].0 == "width";
    assert OptionalKeys[4].0 == "height";
    assert OptionalKeys[5].0 == "denoising_end";
    assert OptionalKeys[6].0 == "guidance_scale";
  }

  /** No optional field is named `num_inference_steps`. */
  lemma StepsNotOptional()
    ensures "num_inference_steps" !in Names(OptionalKeys)
  {
    OptionalKeysNames();
  }

  /** The keyword arguments fail exactly when a present optional field does not
      convert, and then name the first such field, which is an optional one. */
  lemma KwargsFailure(params: Params, steps: int, toFloat: string -> Option<real>)
    ensures var r := FinalKwargs(params, steps, toFloat);
      && (r.Err? <==> exists i :: 0 <= i < |OptionalKeys| && Fails(OptionalKeys[i], params, toFloat))
      && (r.Err? ==> r.error.BadParameter? && r.error.key in OptionalNames)
      && (r.Err? ==> exists i :: 0 <= i < |OptionalKeys| && Fails(OptionalKeys[i], params, toFloat)
                       && r.error == BadParameter(OptionalKeys[i].0)
                       && forall j :: 0 <= j < i ==> !Fails(OptionalKeys[j], params, toFloat))
  {
    OptionalKeysNames();
    AddAllFailure(InitialKwargs(steps), params, OptionalKeys, toFloat);
    var r := FinalKwargs(params, steps, toFloat);
    if r.Err? {
      var i :| 0 <= i < |OptionalKeys| && r.error == BadParameter(OptionalKeys[i].0);
      assert OptionalKeys[i].0 in Names(OptionalKeys);
    }
  }

  /** Only the seven optional fields can enter the keyword arguments from the
      request, and each one present does. */
  lemma KwargsKeys(params: Params, steps: int, toFloat: string -> Option<real>)
    requires FinalKwargs(params, steps, toFloat).Ok?
    ensures FinalKwargs(params, steps, toFloat).value.Keys
            == {"num_inference_steps", "guidance_scale"} + (OptionalNames * params.Keys)
  {
    OptionalKeysNames();
    AddAllKeys(InitialKwargs(steps), params, OptionalKeys, toFloat);
    assert InitialKwargs(steps).Keys == {"num_inference_steps", "guidance_scale"};
  }

  /** The step count is the fixed one whatever the request says: no optional
      field targets it. */
  lemma KwargsFixedSteps(params: Params, steps: int, toFloat: string -> Option<real>)
    requires FinalKwargs(params, steps, toFloat).Ok?
    ensures var kw := FinalKwargs(params, steps, toFloat).value;
      "num_inference_steps" in kw && kw["num_inference_steps"] == IntArg(steps)
  {
    StepsNotOptional();
    AddAllKeeps(InitialKwargs(steps), params, OptionalKeys, toFloat, "num_inference_steps");
  }

  /** `guidance_scale` is the integer 0 unless the request supplies it, and then
      it is the supplied value converted with `float`. */
  lemma KwargsGuidance(params: Params, steps: int, toFloat: string -> Option<real>)
    requires FinalKwargs(params, steps, toFloat).Ok?
    ensures var kw := FinalKwargs(params, steps, toFloat).value;
      && "guidance_scale" in kw
      && ("guidance_scale" !in params ==> kw["guidance_scale"] == IntArg(0))
      && ("guidance_scale" in params ==>
            kw["guidance_scale"].FloatArg?
            && Convert(AsFloat, params["guidance_scale"], toFloat) == Some(kw["guidance_scale"]))
  {
    if "guidance_scale" in params {
      OptionalKeysDistinct();
      assert OptionalKeys[6] == ("guidance_scale", AsFloat);
      AddAllConverts(InitialKwargs(steps), params, OptionalKeys, toFloat, 6);
      var kw := FinalKwargs(params, steps, toFloat).value;
      FloatConversion(params["guidance_scale"], toFloat, kw["guidance_scale"]);
    } else {
      AddAllKeeps(InitialKwargs(steps), params, OptionalKeys, toFloat, "guidance_scale");
    }
  }

  lemma FloatConversion(v: string, toFloat: string -> Option<real>, a: Arg)
    requires Convert(AsFloat, v, toFloat) == Some(a)
    ensures a.FloatArg?
  {
  }

  /** Every optional field the request has reaches the keyword arguments converted. */
  lemma KwargsConverted(params: Params, steps: int, toFloat: string -> Option<real>, i: nat)
    requires FinalKwargs(params, steps, toFloat).Ok?
    requires i < |OptionalKeys| && OptionalKeys[i].0 in params
    ensures var kw := FinalKwargs(params, steps, toFloat).value;
      OptionalKeys[i].0 in kw && Convert(OptionalKeys[i].1, params[OptionalKeys[i].0], toFloat) == Some(kw[OptionalKeys[i].0])
  {
    OptionalKeysDistinct();
    AddAllConverts(InitialKwargs(steps), params, OptionalKeys, toFloat, i);
  }

  // ------------------------------------------------------------ the whole request

  /** What a request hands to the pipeline and writes into the PNG. */
  datatype Generation = Generation(prompt: string, kwargs: Kwargs, metadata: seq<(string, string)>)

  function Instruction(params: Params): string {
    if "elaborate_instruction" in params then params["elaborate_instruction"] else ""
  }

  /** The outcome of one request: `elaborate(instruction, prompt)` is the prompt
      elaboration, `None` when it raises. */
  function Generate(params: Params, defaults: seq<(string, string)>, steps: int,
                    elaborate: (string, string) -> Option<string>, toFloat: string -> Option<real>)
    : Result<Generation, Failure>
  {
    if "prompt" !in params then Err(MissingPrompt)
    else
      var original := params["prompt"];
      var instruction := Instruction(params);
      var prompt := if instruction == "" then Some(original) else elaborate(instruction, original);
      if prompt.None? then Err(ElaborationFailed)
      else
        var history := if instruction == "" then []
                       else [("original_prompt", original), ("elaborate_instruction", instruction)];
        match FinalKwargs(params, steps, toFloat)
        case Err(e) => Err(e)
        case Ok(kwargs) => Ok(Generation(prompt.value, kwargs, defaults + history + [("prompt", prompt.value)]))
  }

  /** When a request fails, and why: the prompt is needed first, then a working
      elaboration when an instruction is given, then convertible optional fields. */
  lemma GenerateFailures(params: Params, defaults: seq<(string, string)>, steps: int,
                         elaborate: (string, string) -> Option<string>, toFloat: string -> Option<real>)
    ensures var r := Generate(params, defaults, steps, elaborate, toFloat);
      && (r == Err(MissingPrompt) <==> "prompt" !in params)
      && (r == Err(ElaborationFailed) <==>
            "prompt" in params && Instruction(params) != "" && elaborate(Instruction(params), params["prompt"]).None?)
      && (r.Ok? <==>
            && "prompt" in params && FinalKwargs(params, steps, toFloat).Ok?
            && (Instruction(params) != "" ==> elaborate(Instruction(params), params["prompt"]).Some?))
  {
    KwargsFailure(params, steps, toFloat);
  }

  /** Without an instruction the prompt goes to the pipeline verbatim, nothing is
      elaborated, and the metadata is the defaults followed by the prompt. */
  lemma WithoutInstruction(params: Params, defaults: seq<(string, string)>, steps: int,
                           elaborate: (string, string) -> Option<string>, toFloat: string -> Option<real>)
    requires "prompt" in params && Instruction(params) == ""
    requires FinalKwargs(params, steps, toFloat).Ok?
    ensures var r := Generate(params, defaults, steps, elaborate, toFloat);
      r.Ok? && r.value.prompt == params["prompt"]
      && r.value.metadata == defaults + [("prompt", params["prompt"])]
  {
    assert defaults + [] == defaults;
  }

  /** With an instruction the elaboration's answer goes to the pipeline, and the
      metadata records the original prompt, then the instruction, then the answer. */
  lemma WithInstruction(params: Params, defaults: seq<(string, string)>, steps: int,
                        elaborate: (string, string) -> Option<string>, toFloat: string -> Option<real>)
    requires "prompt" in params && Instruction(params) != ""
    requires elaborate(Instruction(params), params["prompt"]).Some?
    requires FinalKwargs(params, steps, toFloat).Ok?
    ensures var r := Generate(params, defaults, steps, elaborate, toFloat);
      var answer := elaborate(Instruction(params), params["prompt"]).value;
      r.Ok? && r.value.prompt == answer
      && r.value.metadata == defaults + [("original_prompt", params["prompt"]),
                                         ("elaborate_instruction", Instruction(params)), ("prompt", answer)]
  {
  }

  /** A request that succeeds hands the pipeline the keyword arguments `FinalKwargs` describes. */
  lemma GenerateKwargs(params: Params, defaults: seq<(string, string)>, steps: int,
                       elaborate: (string, string) -> Option<string>, toFloat: string -> Option<real>)
    requires Generate(params, defaults, steps, elaborate, toFloat).Ok?
    ensures FinalKwargs(params, steps, toFloat).Ok?
    ensures Generate(params, defaults, steps, elaborate, toFloat).value.kwargs == FinalKwargs(params, steps, toFloat).value
  {
  }

  ghost predicate HasKey(metadata: seq<(string, string)>, key: string) {
    exists i :: 0 <= i < |metadata| && metadata[i].0 == key
  }

  /** The metadata starts with the defaults in order and ends with the prompt
      handed to the pipeline; `original_prompt` and `elaborate_instruction` are
      recorded exactly when an instruction is given. */
  lemma MetadataFacts(params: Params, ckpt: string, steps: int,
                      elaborate: (string, string) -> Option<string>, toFloat: string -> Option<real>)
    requires Generate(params, DefaultMetadata(ckpt), steps, elaborate, toFloat).Ok?
    ensures var g := Generate(params, DefaultMetadata(ckpt), steps, elaborate, toFloat).value;
      && |g.metadata| >= 4
      && g.metadata[0].0 == "base" && g.metadata[1].0 == "repo" && g.metadata[2] == ("ckpt", ckpt)
      && g.metadata[|g.metadata| - 1] == ("prompt", g.prompt)
      && (HasKey(g.metadata, "original_prompt") <==> Instruction(params) != "")
      && (HasKey(g.metadata, "elaborate_instruction") <==> Instruction(params) != "")
  {
    GenerateKwargs(params, DefaultMetadata(ckpt), steps, elaborate, toFloat);
    if Instruction(params) != "" {
      WithInstruction(params, DefaultMetadata(ckpt), steps, elaborate, toFloat);
      var answer := elaborate(Instruction(params), params["prompt"]).value;
      MetadataList(ckpt, [("original_prompt", params["prompt"]), ("elaborate_instruction", Instruction(params))], answer);
    } else {
      WithoutInstruction(params, DefaultMetadata(ckpt), steps, elaborate, toFloat);
      MetadataList(ckpt, [], params["prompt"]);
      assert DefaultMetadata(ckpt) + [] == DefaultMetadata(ckpt);
    }
  }

  lemma MetadataList(ckpt: string, history: seq<(string, string)>, prompt: string)
    requires history == [] || (|history| == 2 && history[0].0 == "original_prompt"
                               && history[1].0 == "elaborate_instruction")
    ensures var md := DefaultMetadata(ckpt) + history + [("prompt", prompt)];
      && |md| >= 4
      && md[0].0 == "base" && md[1].0 == "repo" && md[2] == ("ckpt", ckpt)
      && md[|md| - 1] == ("prompt", prompt)
      && (HasKey(md, "original_prompt") <==> history != [])
      && (HasKey(md, "elaborate_instruction") <==> history != [])
  {
    var md := DefaultMetadata(ckpt) + history + [("prompt", prompt)];
    if history != [] {
      assert md[3].0 == "original_prompt";
      assert md[4].0 == "elaborate_instruction";
    } else {
      assert |md| == 4;
      assert !HasKey(md, "original_prompt") by {
        forall i | 0 <= i < 4 ensures md[i].0 != "original_prompt" {}
      }
      assert !HasKey(md, "elaborate_instruction") by {
        forall i | 0 <= i < 4 ensures md[i].0 != "elaborate_instruction" {}
      }
    }
  }

  // ------------------------------------------------------------ the handler, step by step

  /** The PNG text chunks, in the order they are added. */
  class PngInfo {
    var chunks: seq<(string, string)>

    constructor ()
      ensures chunks == []
    {
      chunks := [];
    }

    method AddText(key: string, value: string)
      modifies this
      ensures chunks == old(chunks) + [(key, value)]
    {
      chunks := chunks + [(key, value)];
    }
  }

  /** The keyword-argument dictionary the handler fills in place. */
  class ArgDict {
    var items: Kwargs

    /** `dict(num_inference_steps=steps, guidance_scale=0)`. */
    constructor (steps: int)
      ensures items == InitialKwargs(steps)
    {
      items := InitialKwargs(steps);
    }
  }

  /** `maybe_add(kwargs, params, k, conv)`, in place: the dictionary afterwards,
      or the `ValueError` (`ok` false), is the one `Added` describes. */
  method MaybeAdd(kwargs: ArgDict, params: Params, k: string, c: Conv, toFloat: string -> Option<real>)
    returns (ok: bool)
    modifies kwargs
    ensures Added(old(kwargs.items), params, k, c, toFloat) == if ok then Ok(kwargs.items) else Err(BadParameter(k))
    ensures !ok ==> kwargs.items == old(kwargs.items)
  {
    if k in params {
      var v := params[k];
      var a := Convert(c, v, toFloat);
      if a.None? {
        return false;
      }
      kwargs.items := kwargs.items[k := a.value];
    }
    ok := true;
  }

  /** One step of the fold: what the first `maybe_add` leaves for the rest. */
  lemma AddAllStep(kwargs: Kwargs, params: Params, keys: seq<(string, Conv)>, toFloat: string -> Option<real>)
    requires keys != []
    ensures var step := Added(kwargs, params, keys[0].0, keys[0].1, toFloat);
      AddAll(kwargs, params, keys, toFloat) == if step.Err? then Err(step.error) else AddAll(step.value, params, keys[1..], toFloat)
  {
  }

  /** The request handler of both revisions, statement by statement. `asked`
      records the calls made to the elaboration: at most one, with the
      instruction and the original prompt. */
  method Handle(params: Params, defaults: seq<(string, string)>, steps: int,
                elaborate: (string, string) -> Option<string>, toFloat: string -> Option<real>)
    returns (r: Result<Generation, Failure>, ghost asked: seq<(string, string)>)
    ensures r == Generate(params, defaults, steps, elaborate, toFloat)
    ensures asked == if "prompt" in params && Instruction(params) != ""
                     then [(Instruction(params), params["prompt"])] else []
  {
    asked := [];
    var metadata := new PngInfo();
    for i := 0 to |defaults|
      invariant metadata.chunks == defaults[..i]
    {
      metadata.AddText(defaults[i].0, defaults[i].1);
    }
    assert metadata.chunks == defaults;
    if "prompt" !in params {
      return Err(MissingPrompt), asked;
    }
    var prompt := params["prompt"];
    var instruction := if "elaborate_instruction" in params then params["elaborate_instruction"] else "";
    assert instruction == Instruction(params);
    ghost var history: seq<(string, string)> := [];
    if instruction != "" {
      metadata.AddText("original_prompt", prompt);
      metadata.AddText("elaborate_instruction", instruction);
      history := [("original_prompt", prompt), ("elaborate_instruction", instruction)];
      var answer := elaborate(instruction, prompt);
      asked := [(instruction, prompt)];
      if answer.None? {
        return Err(ElaborationFailed), asked;
      }
      prompt := answer.value;
    }
    metadata.AddText("prompt", prompt);
    assert metadata.chunks == defaults + history + [("prompt", prompt)];

    var kwargs := BuildKwargs(params, steps, toFloat);
    if kwargs.Err? {
      return Err(kwargs.error), asked;
    }
    r := Ok(Generation(prompt, kwargs.value, metadata.chunks));
  }

  /** The keyword arguments of one request (the `dict(...)` and the seven
      `maybe_add` calls), filled in place in source order. */
  method BuildKwargs(params: Params, steps: int, toFloat: string -> Option<real>)
    returns (r: Result<Kwargs, Failure>)
    ensures r == FinalKwargs(params, steps, toFloat)
  {
    var kwargs := new ArgDict(steps);
    assert OptionalKeys[0..] == OptionalKeys;
    var ok: bool;
    ok := AddKey(kwargs, params, "prompt_2", AsStr, toFloat, 0);
    if !ok {
      return Err(BadParameter("prompt_2"));
    }
    ok := AddKey(kwargs, params, "negative_prompt", AsStr, toFloat, 1);
    if !ok {
      return Err(BadParameter("negative_prompt"));
    }
    ok := AddKey(kwargs, params, "negative_prompt_2", AsStr, toFloat, 2);
    if !ok {
      return Err(BadParameter("negative_prompt_2"));
    }
    ok := AddKey(kwargs, params, "width", AsInt, toFloat, 3);
    if !ok {
      return Err(BadParameter("width"));
    }
    ok := AddKey(kwargs, params, "height", AsInt, toFloat, 4);
    if !ok {
      return Err(BadParameter("height"));
    }
    ok := AddKey(kwargs, params, "denoising_end", AsFloat, toFloat, 5);
    if !ok {
      return Err(BadParameter("denoising_end"));
    }
    ok := AddKey(kwargs, params, "guidance_scale", AsFloat, toFloat, 6);
    if !ok {
      return Err(BadParameter("guidance_scale"));
    }
    assert OptionalKeys[7..] == [];
    r := Ok(kwargs.items);
  }

  /** One `maybe_add` call of the handler, for the `i`-th optional field: what the
      remaining calls produce from the dictionary before it is what the calls after
      it produce from the dictionary after it, or the call's `ValueError`. */
  method AddKey(kwargs: ArgDict, params: Params, k: string, c: Conv, toFloat: string -> Option<real>, ghost i: nat)
    returns (ok: bool)
    requires i < |OptionalKeys| && OptionalKeys[i] == (k, c)
    modifies kwargs
    ensures AddAll(old(kwargs.items), params, OptionalKeys[i..], toFloat)
            == if ok then AddAll(kwargs.items, params, OptionalKeys[i + 1..], toFloat) else Err(BadParameter(k))
    ensures !ok ==> kwargs.items == old(kwargs.items)
  {
    ghost var before := kwargs.items;
    ok := MaybeAdd(kwargs, params, k, c, toFloat);
    AddAllAt(before, params, i, toFloat);
  }

  /** The fold over the optional fields from the `i`-th on is one `maybe_add`
      followed by the fold from the next field on. */
  lemma AddAllAt(kwargs: Kwargs, params: Params, i: nat, toFloat: string -> Option<real>)
    requires i < |OptionalKeys|
    ensures AddAll(kwargs, params, OptionalKeys[i..], toFloat)
            == match Added(kwargs, params, OptionalKeys[i].0, OptionalKeys[i].1, toFloat)
               case Err(e) => Err(e)
               case Ok(next) => AddAll(next, params, OptionalKeys[i + 1..], toFloat)
  {
    AddAllStep(kwargs, params, OptionalKeys[i..], toFloat);
    assert OptionalKeys[i..][1..] == OptionalKeys[i + 1..];
  }
}
