/** The validated `ModelInfo` descriptor (a frozen dataclass in the source). */
module ModelInfos {
  import opened Results
  import opened Errors

  const Formats: set<string> := {"safetensors", "pytorch"}
  const RepoTypes: set<string> := {"modelscope", "huggingface"}

  datatype ModelInfo = ModelInfo(
    modelId: string,
    sizeGb: real,
    format: string,
    repoType: string,
    architecture: string)
  {
    /** The invariants `__post_init__` enforces; `modelId` and `architecture` are free. */
    predicate Valid() {
      sizeGb > 0.0 && format in Formats && repoType in RepoTypes
    }
  }

  /** Every invariant `m` breaks, in the order the checks are written. */
  function Violations(m: ModelInfo): (vs: seq<Violation>)
    ensures vs == [] <==> m.Valid()
    ensures m.sizeGb <= 0.0 ==> InvalidModelSize(m.sizeGb) in vs
    ensures m.format !in Formats ==> UnsupportedFormat(m.format) in vs
    ensures m.repoType !in RepoTypes ==> UnsupportedRepoType(m.repoType) in vs
    ensures m.sizeGb <= 0.0 ==> vs[0] == InvalidModelSize(m.sizeGb)
    ensures m.sizeGb > 0.0 && m.format !in Formats ==> vs[0] == UnsupportedFormat(m.format)
    ensures m.sizeGb > 0.0 && m.format in Formats && m.repoType !in RepoTypes ==>
      vs == [UnsupportedRepoType(m.repoType)]
  {
    (if m.sizeGb <= 0.0 then [InvalidModelSize(m.sizeGb)] else [])
    + (if m.format !in Formats then [UnsupportedFormat(m.format)] else [])
    + (if m.repoType !in RepoTypes then [UnsupportedRepoType(m.repoType)] else [])
  }

  /**
   * `ModelInfo(...)` followed by `__post_init__`: size, then format, then repo
   * type; the first failing check raises.
   */
  function NewModelInfo(modelId: string, sizeGb: real, format: string, repoType: string, architecture: string)
    : (r: Result<ModelInfo, Error>)
    ensures var m := ModelInfo(modelId, sizeGb, format, repoType, architecture);
      && (r.Success? <==> m.Valid())
      && (r.Success? ==> r.value == m)
      && (r.Failure? ==> r.error == Validation(Violations(m)[0]))
  {
    if sizeGb <= 0.0 then Failure(Validation(InvalidModelSize(sizeGb)))
    else if format !in Formats then Failure(Validation(UnsupportedFormat(format)))
    else if repoType !in RepoTypes then Failure(Validation(UnsupportedRepoType(repoType)))
    else Success(ModelInfo(modelId, sizeGb, format, repoType, architecture))
  }

  /** Identifier and architecture never decide the outcome. */
  lemma FreeFieldsUnconstrained(id1: string, id2: string, a1: string, a2: string, sizeGb: real, format: string, repoType: string)
    ensures NewModelInfo(id1, sizeGb, format, repoType, a1).Success?
        <==> NewModelInfo(id2, sizeGb, format, repoType, a2).Success?
    ensures NewModelInfo(id1, sizeGb, format, repoType, a1).Failure? ==>
      NewModelInfo(id1, sizeGb, format, repoType, a1) == NewModelInfo(id2, sizeGb, format, repoType, a2)
  {
  }

  /** The descriptor's tests: a valid record, a negative size, the "gguf" format. */
  lemma ValidationExamples()
    ensures NewModelInfo("qwen/Qwen-7B", 14.2, "safetensors", "modelscope", "qwen2")
      == Success(ModelInfo("qwen/Qwen-7B", 14.2, "safetensors", "modelscope", "qwen2"))
    ensures NewModelInfo("test", -1.0, "safetensors", "modelscope", "qwen2").error.violation.Label()
      == "Invalid model size"
    ensures NewModelInfo("test", 10.0, "gguf", "modelscope", "qwen2")
      == Failure(Validation(UnsupportedFormat("gguf")))
    ensures NewModelInfo("test", 0.0, "gguf", "github", "x") == Failure(Validation(InvalidModelSize(0.0)))
  {
  }
}
