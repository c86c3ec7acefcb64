/**
  The earlier, single-file server revision: the checkpoint and the default
  metadata are module-level values, and the elaboration runs a shell command
  built from a template with the quoted instruction and the quoted prompt.
*/
module LegacyServer {
  import opened Wrappers
  import G = Generation

  const Steps: nat := 8
  const UseUnet: bool := true

  /** The checkpoint is chosen by the same step count the pipeline runs. */
  const Ckpt: string := G.CheckpointName(Steps, UseUnet)

  /** A parsed `str.format` template: literal text and numbered fields. */
  datatype Piece = Text(text: string) | Field(index: nat)

  /** `'chap -S {0} ask --no-print-prompt -n /dev/null {1}'`, parsed. */
  const ElaborateTemplate: seq<Piece> :=
    [Text("chap -S "), Field(0), Text(" ask --no-print-prompt -n /dev/null "), Field(1)]

  /** `template.format(*args)`. */
  function Format(template: seq<Piece>, args: seq<string>): string
    requires forall i :: 0 <= i < |template| && template[i].Field? ==> template[i].index < |args|
  {
    if template == [] then ""
    else
      var head := match template[0] case Text(t) => t case Field(n) => args[n];
      head + Format(template[1..], args)
  }

  /** The shell command: slot 0 holds the quoted instruction, slot 1 the quoted prompt. */
  function ElaborationCommand(instruction: string, prompt: string, quote: string -> string): (cmd: string)
    ensures cmd == "chap -S " + quote(instruction) + " ask --no-print-prompt -n /dev/null " + quote(prompt)
  {
    var args := [quote(instruction), quote(prompt)];
    assert Format(ElaborateTemplate[3..], args) == quote(prompt);
    assert Format(ElaborateTemplate[2..], args) == " ask --no-print-prompt -n /dev/null " + quote(prompt);
    assert Format(ElaborateTemplate[1..], args) == quote(instruction) + " ask --no-print-prompt -n /dev/null " + quote(prompt);
    Format(ElaborateTemplate, args)
  }

  /** The elaboration: the command's output, `None` when it exits non-zero. */
  function Elaborator(quote: string -> string, run: string -> Option<string>): (string, string) -> Option<string> {
    (instruction: string, prompt: string) => run(ElaborationCommand(instruction, prompt, quote))
  }

  /** The route handler. */
  method Generate(params: G.Params, quote: string -> string, run: string -> Option<string>,
                  toFloat: string -> Option<real>)
    returns (r: Result<G.Generation, G.Failure>)
    ensures r == G.Generate(params, G.DefaultMetadata(Ckpt), Steps, Elaborator(quote, run), toFloat)
  {
    ghost var asked;
    r, asked := G.Handle(params, G.DefaultMetadata(Ckpt), Steps, Elaborator(quote, run), toFloat);
  }

  /** The checkpoint this revision records. */
  lemma CheckpointIsEightStep()
    ensures Ckpt == "sdxl_lightning_8step_unet.safetensors"
  {
    G.EightStepUnet();
  }

  /** Here the recorded checkpoint names the step count the pipeline runs. */
  lemma CheckpointMatchesSteps(params: G.Params, quote: string -> string, run: string -> Option<string>,
                               toFloat: string -> Option<real>)
    requires G.Generate(params, G.DefaultMetadata(Ckpt), Steps, Elaborator(quote, run), toFloat).Ok?
    ensures var g := G.Generate(params, G.DefaultMetadata(Ckpt), Steps, Elaborator(quote, run), toFloat).value;
      && |g.metadata| > 2 && g.metadata[2] == ("ckpt", "sdxl_lightning_8step_unet.safetensors")
      && "num_inference_steps" in g.kwargs && g.kwargs["num_inference_steps"] == G.IntArg(8)
      && g.metadata[2].1 == G.CheckpointName(Steps, UseUnet)
  {
    CheckpointIsEightStep();
    G.MetadataFacts(params, Ckpt, Steps, Elaborator(quote, run), toFloat);
    G.GenerateKwargs(params, G.DefaultMetadata(Ckpt), Steps, Elaborator(quote, run), toFloat);
    G.KwargsFixedSteps(params, Steps, toFloat);
  }

  /** With an instruction, the prompt handed to the pipeline is the output of
      the command built from the quoted instruction and the quoted original prompt. */
  lemma ElaboratedPrompt(params: G.Params, quote: string -> string, run: string -> Option<string>,
                         toFloat: string -> Option<real>)
    requires "prompt" in params && G.Instruction(params) != ""
    requires G.Generate(params, G.DefaultMetadata(Ckpt), Steps, Elaborator(quote, run), toFloat).Ok?
    ensures var g := G.Generate(params, G.DefaultMetadata(Ckpt), Steps, Elaborator(quote, run), toFloat).value;
      Some(g.prompt) == run("chap -S " + quote(G.Instruction(params)) + " ask --no-print-prompt -n /dev/null "
                            + quote(params["prompt"]))
  {
    var e := Elaborator(quote, run);
    var cmd := ElaborationCommand(G.Instruction(params), params["prompt"], quote);
    assert e(G.Instruction(params), params["prompt"]) == run(cmd);
    G.GenerateFailures(params, G.DefaultMetadata(Ckpt), Steps, e, toFloat);
    G.WithInstruction(params, G.DefaultMetadata(Ckpt), Steps, e, toFloat);
  }
}
