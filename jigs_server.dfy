/**
  The packaged server revision: `make_generator` fixes the checkpoint and the
  default metadata once, and the `generate` it returns handles each request.
  The elaboration is a call to a chat service with a session made from the
  instruction.
*/
module JigsServer {
  import opened Wrappers
  import G = Generation

  /** The step count the checkpoint was trained for. */
  const ModelSteps: nat := 8
  /** The step count requested from the pipeline. */
  const Steps: nat := 12
  const UseUnet: bool := true

  /** What `make_generator` builds: the checkpoint name and the metadata every
      image starts with. The model itself is not part of this model. */
  class Generator {
    const ckpt: string
    const defaultMetadata: seq<(string, string)>

    constructor ()
      ensures ckpt == G.CheckpointName(ModelSteps, UseUnet)
      ensures defaultMetadata == G.DefaultMetadata(ckpt)
    {
      ckpt := G.CheckpointName(ModelSteps, UseUnet);
      defaultMetadata := G.DefaultMetadata(G.CheckpointName(ModelSteps, UseUnet));
    }

    /** The inner `generate`; `ask(instruction, prompt)` is the chat service's
        answer in a new session made from the instruction, `None` when it raises. */
    method Generate(params: G.Params, ask: (string, string) -> Option<string>, toFloat: string -> Option<real>)
      returns (r: Result<G.Generation, G.Failure>)
      ensures r == G.Generate(params, defaultMetadata, Steps, ask, toFloat)
    {
      ghost var asked;
      r, asked := G.Handle(params, defaultMetadata, Steps, ask, toFloat);
    }
  }

  /** The checkpoint this revision records. */
  lemma CheckpointIsEightStep()
    ensures G.CheckpointName(ModelSteps, UseUnet) == "sdxl_lightning_8step_unet.safetensors"
    ensures G.CheckpointName(ModelSteps, UseUnet) != G.CheckpointName(Steps, UseUnet)
  {
    G.EightStepUnet();
    if G.CheckpointName(ModelSteps, UseUnet) == G.CheckpointName(Steps, UseUnet) {
      G.CheckpointNameInjective(ModelSteps, UseUnet, Steps, UseUnet);
    }
  }

  /** In this revision every image records the 8-step checkpoint while the
      pipeline runs 12 steps: the recorded name is not the one for the steps run. */
  lemma CheckpointStepsDiffer(params: G.Params, ask: (string, string) -> Option<string>, toFloat: string -> Option<real>)
    requires G.Generate(params, G.DefaultMetadata(G.CheckpointName(ModelSteps, UseUnet)), Steps, ask, toFloat).Ok?
    ensures var g := G.Generate(params, G.DefaultMetadata(G.CheckpointName(ModelSteps, UseUnet)), Steps, ask, toFloat).value;
      && |g.metadata| > 2 && g.metadata[2] == ("ckpt", "sdxl_lightning_8step_unet.safetensors")
      && "num_inference_steps" in g.kwargs && g.kwargs["num_inference_steps"] == G.IntArg(12)
      && g.metadata[2].1 != G.CheckpointName(Steps, UseUnet)
  {
    var ck := G.CheckpointName(ModelSteps, UseUnet);
    CheckpointIsEightStep();
    G.MetadataFacts(params, ck, Steps, ask, toFloat);
    G.GenerateKwargs(params, G.DefaultMetadata(G.CheckpointName(ModelSteps, UseUnet)), Steps, ask, toFloat);
    G.KwargsFixedSteps(params, Steps, toFloat);
  }
}
