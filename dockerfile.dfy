/**
 * The decisions `DockerfileGenerator.generate` makes before it hands over to
 * the template engine: which template, and the values substituted into it.
 */
module Dockerfile {
  import opened Text
  import opened Engines
  import opened ModelInfos

  const DefaultPort: int := 8080
  const TemplateSuffix: string := ".dockerfile"

  /** `s.replace("/", "-")`. */
  function ReplaceSlashes(s: string): (r: string)
    ensures |r| == |s|
    ensures forall i | 0 <= i < |s| :: r[i] != '/'
    ensures forall i | 0 <= i < |s| :: s[i] == '/' ==> r[i] == '-'
    ensures forall i | 0 <= i < |s| :: s[i] != '/' ==> r[i] == s[i]
  {
    seq(|s|, i requires 0 <= i < |s| => if s[i] == '/' then '-' else s[i])
  }

  /** `s.lower()`, over ASCII. */
  function LowerAscii(s: string): (r: string)
    ensures |r| == |s|
    ensures forall i | 0 <= i < |s| :: r[i] == LowerChar(s[i])
    ensures forall i | 0 <= i < |s| :: !IsUpperAscii(r[i])
  {
    seq(|s|, i requires 0 <= i < |s| => LowerChar(s[i]))
  }

  /** `model_id.replace("/", "-").lower()`: a path- and tag-safe model name. */
  function ModelName(modelId: string): (name: string)
    ensures |name| == |modelId|
    ensures forall i | 0 <= i < |name| :: name[i] != '/' && !IsUpperAscii(name[i])
    ensures forall i | 0 <= i < |modelId| :: modelId[i] == '/' ==> name[i] == '-'
    ensures forall i | 0 <= i < |modelId| :: modelId[i] != '/' ==> name[i] == LowerChar(modelId[i])
  {
    LowerAscii(ReplaceSlashes(modelId))
  }

  /** A sanitised name is its own sanitisation. */
  lemma ModelNameIdempotent(modelId: string)
    ensures ModelName(ModelName(modelId)) == ModelName(modelId)
  {
    var once := ModelName(modelId);
    forall i | 0 <= i < |once| ensures ModelName(once)[i] == once[i] {
      assert !IsUpperAscii(once[i]);
    }
  }

  /** Replacing and lower-casing commute: neither makes or removes the other's characters. */
  lemma ModelNameOrderIrrelevant(modelId: string)
    ensures ModelName(modelId) == ReplaceSlashes(LowerAscii(modelId))
  {
    var a, b := ModelName(modelId), ReplaceSlashes(LowerAscii(modelId));
    forall i | 0 <= i < |modelId| ensures a[i] == b[i] {
      assert LowerAscii(modelId)[i] == LowerChar(modelId[i]);
    }
  }

  lemma ModelNameExample()
    ensures ModelName("ModelScope/Special-Model") == "modelscope-special-model"
    ensures ModelName("qwen/Qwen-7B") == "qwen-qwen-7b"
  {
  }

  /** `f"{engine.value}.dockerfile"`. */
  function TemplateName(e: Engine): (name: string)
    ensures EndsWith(name, TemplateSuffix)
    ensures name[..|name| - |TemplateSuffix|] == Value(e)
  {
    Value(e) + TemplateSuffix
  }

  /** The two template files. */
  lemma TemplateNameValues()
    ensures TemplateName(Transformers) == "transformers.dockerfile"
    ensures TemplateName(Vllm) == "vllm.dockerfile"
  {
  }

  /** Each engine has its own template. */
  lemma TemplateNameInjective(e1: Engine, e2: Engine)
    ensures TemplateName(e1) == TemplateName(e2) <==> e1 == e2
  {
    if TemplateName(e1) == TemplateName(e2) {
      assert Value(e1) == TemplateName(e1)[..|TemplateName(e1)| - |TemplateSuffix|];
      ValueInjective(e1, e2);
    }
  }

  /** The template and the three values `template.render` receives. */
  datatype RenderRequest = RenderRequest(templateName: string, modelId: string, modelName: string, port: int)

  /** `generate` up to the rendering: the raw identifier, its sanitised name and the port are passed on. */
  function Generate(model: ModelInfo, engine: Engine, port: int := DefaultPort): (req: RenderRequest)
    ensures req.templateName == TemplateName(engine)
    ensures req.modelId == model.modelId
    ensures req.modelName == ModelName(model.modelId)
    ensures req.port == port
  {
    RenderRequest(TemplateName(engine), model.modelId, ModelName(model.modelId), port)
  }

  /** The generator's sanitisation test: port 8080 by default, the identifier unsanitised beside its sanitised name. */
  lemma GenerateDefaultPortExample(model: ModelInfo)
    requires model.modelId == "ModelScope/Special-Model"
    ensures Generate(model, Transformers)
      == RenderRequest("transformers.dockerfile", "ModelScope/Special-Model", "modelscope-special-model", 8080)
  {
    ModelNameExample();
    TemplateNameValues();
  }

  /** The generator's vLLM test on port 9000. */
  lemma GenerateVllmExample(model: ModelInfo)
    requires model.modelId == "qwen/Qwen-7B"
    ensures Generate(model, Vllm, 9000) == RenderRequest("vllm.dockerfile", "qwen/Qwen-7B", "qwen-qwen-7b", 9000)
  {
    ModelNameExample();
    TemplateNameValues();
  }
}
