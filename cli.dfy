/** The two pure decisions of the `pack` command that feed the core. */
module Cli {
  import opened Results
  import opened Text
  import opened Engines
  import opened Dockerfile

  const EngineChoices: set<string> := {"auto", "transformers", "vllm"}
  const ImageTagPrefix: string := "ezrunner-"

  /** `None if engine == "auto" else Engine(engine)`, for a token the option parser admitted. */
  function ForcedEngine(token: string): (force: Option<Engine>)
    requires token in EngineChoices
    ensures force.None? <==> token == "auto"
    ensures force.Some? ==> Value(force.value) == token
  {
    if token == "auto" then None else FromValue(token)
  }

  /** The CLI maps an engine's own tag back to that engine. */
  lemma ForcedEngineOfTag(e: Engine)
    ensures ForcedEngine(Value(e)) == Some(e)
  {
  }

  /** `f"ezrunner-{model_id.replace('/', '-').lower()}"`. */
  function ImageTag(modelId: string): (tag: string)
    ensures |tag| == |ImageTagPrefix| + |modelId|
    ensures tag[..|ImageTagPrefix|] == ImageTagPrefix
    ensures tag[|ImageTagPrefix|..] == ModelName(modelId)
    ensures forall i | 0 <= i < |tag| :: tag[i] != '/' && !IsUpperAscii(tag[i])
  {
    ImageTagPrefix + ModelName(modelId)
  }
}
