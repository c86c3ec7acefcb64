/**
  The two senders against the server's request handling: what the command-line
  client's form and the chat bot's form turn into on the server.
*/
module Exchange {
  import opened Wrappers
  import opened PyText
  import G = Generation
  import C = Client
  import D = DiscordBot

  /** The keyword arguments a form with these fields produces: the fixed step
      count, guidance 0, and the fields that are present. */
  function ExpectedKwargs(steps: int, negativePrompt: string, size: Option<(int, int)>): (kw: G.Kwargs)
    ensures kw.Keys == {"num_inference_steps", "guidance_scale", "negative_prompt"}
                       + (if size.Some? then {"width", "height"} else {})
    ensures kw["num_inference_steps"] == G.IntArg(steps) && kw["guidance_scale"] == G.IntArg(0)
    ensures kw["negative_prompt"] == G.StrArg(negativePrompt)
    ensures size.Some? ==> kw["width"] == G.IntArg(size.value.0) && kw["height"] == G.IntArg(size.value.1)
  {
    var base := G.InitialKwargs(steps)["negative_prompt" := G.StrArg(negativePrompt)];
    if size.Some? then base["width" := G.IntArg(size.value.0)]["height" := G.IntArg(size.value.1)] else base
  }

  /** The request's optional fields are a negative prompt and, maybe, an integer
      width and height. */
  predicate SimpleForm(params: G.Params, negativePrompt: string, size: Option<(int, int)>) {
    && "prompt_2" !in params && "negative_prompt_2" !in params
    && "denoising_end" !in params && "guidance_scale" !in params
    && "negative_prompt" in params && params["negative_prompt"] == negativePrompt
    && ("width" in params <==> size.Some?) && ("height" in params <==> size.Some?)
    && (size.Some? ==> ParseInt(params["width"]) == Some(size.value.0))
    && (size.Some? ==> ParseInt(params["height"]) == Some(size.value.1))
  }

  /** A request of that shape gets exactly those fields as keyword arguments:
      the seven `maybe_add` calls in turn. */
  lemma KwargsOfSimpleForm(params: G.Params, steps: int, toFloat: string -> Option<real>,
                           negativePrompt: string, size: Option<(int, int)>)
    requires SimpleForm(params, negativePrompt, size)
    ensures G.FinalKwargs(params, steps, toFloat) == Ok(ExpectedKwargs(steps, negativePrompt, size))
  {
    var k0 := G.InitialKwargs(steps);
    var k2 := k0["negative_prompt" := G.StrArg(negativePrompt)];
    var k5 := if size.Some? then k2["width" := G.IntArg(size.value.0)]["height" := G.IntArg(size.value.1)] else k2;
    StringFields(params, k0, toFloat, negativePrompt);
    SizeFields(params, k2, toFloat, size);
    FloatFields(params, k5, toFloat);
    assert k5 == ExpectedKwargs(steps, negativePrompt, size);
  }

  /** `prompt_2` and `negative_prompt_2` are absent; `negative_prompt` is copied. */
  lemma StringFields(params: G.Params, kw: G.Kwargs, toFloat: string -> Option<real>, negativePrompt: string)
    requires "prompt_2" !in params && "negative_prompt_2" !in params
    requires "negative_prompt" in params && params["negative_prompt"] == negativePrompt
    ensures G.AddAll(kw, params, G.OptionalKeys, toFloat)
            == G.AddAll(kw["negative_prompt" := G.StrArg(negativePrompt)], params, G.OptionalKeys[3..], toFloat)
  {
    assert G.OptionalKeys[0..] == G.OptionalKeys;
    G.AddAllAt(kw, params, 0, toFloat);
    G.AddAllAt(kw, params, 1, toFloat);
    G.AddAllAt(kw["negative_prompt" := G.StrArg(negativePrompt)], params, 2, toFloat);
  }

  /** `width` and `height` are both absent, or both present and integers. */
  lemma SizeFields(params: G.Params, kw: G.Kwargs, toFloat: string -> Option<real>, size: Option<(int, int)>)
    requires ("width" in params <==> size.Some?) && ("height" in params <==> size.Some?)
    requires size.Some? ==> ParseInt(params["width"]) == Some(size.value.0)
    requires size.Some? ==> ParseInt(params["height"]) == Some(size.value.1)
    ensures G.AddAll(kw, params, G.OptionalKeys[3..], toFloat)
            == G.AddAll(if size.Some? then kw["width" := G.IntArg(size.value.0)]["height" := G.IntArg(size.value.1)] else kw,
                        params, G.OptionalKeys[5..], toFloat)
  {
    G.AddAllAt(kw, params, 3, toFloat);
    if size.Some? {
      G.AddAllAt(kw["width" := G.IntArg(size.value.0)], params, 4, toFloat);
    } else {
      G.AddAllAt(kw, params, 4, toFloat);
    }
  }

  /** `denoising_end` and `guidance_scale` are absent. */
  lemma FloatFields(params: G.Params, kw: G.Kwargs, toFloat: string -> Option<real>)
    requires "denoising_end" !in params && "guidance_scale" !in params
    ensures G.AddAll(kw, params, G.OptionalKeys[5..], toFloat) == Ok(kw)
  {
    G.AddAllAt(kw, params, 5, toFloat);
    G.AddAllAt(kw, params, 6, toFloat);
    assert G.OptionalKeys[7..] == [];
  }

  lemma ClientFormIsSimple(params: G.Params, negativePrompt: string, width: int, height: int)
    requires params.Keys == {"prompt", "negative_prompt", "elaborate_instruction", "width", "height", "num_inference_steps"}
    requires params["negative_prompt"] == negativePrompt
    requires ParseInt(params["width"]) == Some(width) && ParseInt(params["height"]) == Some(height)
    ensures SimpleForm(params, negativePrompt, Some((width, height)))
  {
    ClientKeys(params);
  }

  lemma ClientKeys(params: G.Params)
    requires params.Keys == {"prompt", "negative_prompt", "elaborate_instruction", "width", "height", "num_inference_steps"}
    ensures "negative_prompt" in params && "width" in params && "height" in params
    ensures "prompt_2" !in params && "negative_prompt_2" !in params
    ensures "denoising_end" !in params && "guidance_scale" !in params
  {
  }

  /** The client's form never makes a field fail to convert, and the server takes
      its negative prompt, width and height; the step count the client sends is
      ignored in favour of the server's own. */
  lemma ClientKwargs(form: C.Form, steps: int, toFloat: string -> Option<real>)
    requires C.Encodable(form)
    ensures G.FinalKwargs(C.FormFields(form), steps, toFloat)
            == Ok(ExpectedKwargs(steps, form.negativePrompt, Some((form.width, form.height))))
  {
    var params := C.FormFields(form);
    C.FormFieldsDecode(form);
    ClientFormIsSimple(params, form.negativePrompt, form.width, form.height);
    KwargsOfSimpleForm(params, steps, toFloat, form.negativePrompt, Some((form.width, form.height)));
  }

  /** A client request succeeds unless the elaboration it asks for fails; the
      pipeline then gets the typed prompt, or the elaboration's answer. */
  lemma ClientRequest(form: C.Form, defaults: seq<(string, string)>, steps: int,
                      elaborate: (string, string) -> Option<string>, toFloat: string -> Option<real>)
    requires C.Encodable(form)
    ensures var r := G.Generate(C.FormFields(form), defaults, steps, elaborate, toFloat);
      && (r.Ok? <==> form.instruction == "" || elaborate(form.instruction, form.prompt).Some?)
      && (r.Ok? ==> r.value.kwargs == ExpectedKwargs(steps, form.negativePrompt, Some((form.width, form.height))))
      && (r.Ok? && form.instruction == "" ==>
            r.value.prompt == form.prompt && r.value.metadata == defaults + [("prompt", form.prompt)])
      && (r.Ok? && form.instruction != "" ==>
            && r.value.prompt == elaborate(form.instruction, form.prompt).value
            && r.value.metadata == defaults + [("original_prompt", form.prompt),
                                               ("elaborate_instruction", form.instruction),
                                               ("prompt", r.value.prompt)])
  {
    var params := C.FormFields(form);
    ClientKwargs(form, steps, toFloat);
    G.GenerateFailures(params, defaults, steps, elaborate, toFloat);
    assert G.Instruction(params) == form.instruction;
    if form.instruction == "" {
      G.WithoutInstruction(params, defaults, steps, elaborate, toFloat);
    } else if elaborate(form.instruction, form.prompt).Some? {
      G.WithInstruction(params, defaults, steps, elaborate, toFloat);
    }
  }

  /** A bot request always asks for an elaboration; when it answers, the pipeline
      gets the answer with an empty negative prompt at the default size, and the
      metadata keeps the user's prompt and the instruction. */
  lemma BotRequest(prompt: string, defaults: seq<(string, string)>, steps: int,
                   elaborate: (string, string) -> Option<string>, toFloat: string -> Option<real>)
    ensures var r := G.Generate(D.BotForm(prompt), defaults, steps, elaborate, toFloat);
      && (r.Ok? <==> elaborate(D.ElaborateInstruction, prompt).Some?)
      && (r.Ok? ==>
            && r.value.prompt == elaborate(D.ElaborateInstruction, prompt).value
            && r.value.kwargs == ExpectedKwargs(steps, "", None)
            && r.value.metadata == defaults + [("original_prompt", prompt),
                                               ("elaborate_instruction", D.ElaborateInstruction),
                                               ("prompt", r.value.prompt)])
  {
    var params := D.BotForm(prompt);
    KwargsOfSimpleForm(params, steps, toFloat, "", None);
    G.GenerateFailures(params, defaults, steps, elaborate, toFloat);
    if elaborate(D.ElaborateInstruction, prompt).Some? {
      G.WithInstruction(params, defaults, steps, elaborate, toFloat);
    }
  }
}
