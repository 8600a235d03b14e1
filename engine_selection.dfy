/** `EngineSelector.select`: the ordered, first-match engine policy. */
module EngineSelection {
  import opened Results
  import opened Engines
  import opened HardwareSpecs
  import opened ModelInfos

  /** Below this multiple of the model size the high-throughput engine is refused. */
  const LowHeadroom: real := 1.5
  /** At or above this multiple of the model size the high-throughput engine is chosen. */
  const HighHeadroom: real := 2.0

  /** The vendor/GPU gate of rule 2: only an NVIDIA GPU can run vLLM. */
  predicate NvidiaGpu(hw: Hardware) {
    hw.HasGpu() && hw.gpuVendor == "nvidia"
  }

  /**
   * Rules in order: a forced engine wins; no GPU or a non-NVIDIA vendor gives
   * transformers; memory below 1.5x the model size gives transformers; memory
   * at or above 2.0x gives vLLM; anything between gives transformers.
   */
  function Select(model: ModelInfo, hw: Hardware, force: Option<Engine> := None): (r: Engine)
    ensures force.Some? ==> r == force.value
    ensures force.None? && !NvidiaGpu(hw) ==> r == Transformers
    ensures force.None? && hw.gpuMemoryGb < model.sizeGb * LowHeadroom ==> r == Transformers
    ensures (force.None? && NvidiaGpu(hw) && hw.gpuMemoryGb >= model.sizeGb * LowHeadroom
             && hw.gpuMemoryGb >= model.sizeGb * HighHeadroom) ==> r == Vllm
    ensures (force.None? && model.sizeGb * LowHeadroom <= hw.gpuMemoryGb < model.sizeGb * HighHeadroom)
            ==> r == Transformers
  {
    if force.Some? then force.value
    else if !hw.HasGpu() || hw.gpuVendor != "nvidia" then Transformers
    else if hw.gpuMemoryGb < model.sizeGb * LowHeadroom then Transformers
    else if hw.gpuMemoryGb >= model.sizeGb * HighHeadroom then Vllm
    else Transformers
  }

  /**
   * Without an override, vLLM is chosen exactly when there is an NVIDIA GPU
   * with at least twice the model's size in memory.  The 1.5x rule is then
   * redundant, which needs the size to be non-negative, as every valid
   * descriptor's is.
   */
  lemma SelectCharacterisation(model: ModelInfo, hw: Hardware)
    requires model.Valid()
    ensures Select(model, hw) == Vllm
        <==> NvidiaGpu(hw) && hw.gpuMemoryGb >= model.sizeGb * HighHeadroom
    ensures Select(model, hw) == Transformers
        <==> !NvidiaGpu(hw) || hw.gpuMemoryGb < model.sizeGb * HighHeadroom
  {
  }

  /** The non-negative size matters: a negative size can pass the 2.0x rule but not the 1.5x rule. */
  lemma CharacterisationNeedsNonNegativeSize()
    ensures var model := ModelInfo("m", -2.0, "safetensors", "modelscope", "x");
      var hw := Hardware(-3.5, 1, 8, 16.0, "nvidia");
      && NvidiaGpu(hw) && hw.gpuMemoryGb >= model.sizeGb * HighHeadroom
      && Select(model, hw) == Transformers
  {
  }

  /** More GPU memory, everything else equal, never withdraws vLLM. */
  lemma SelectMonotoneInMemory(model: ModelInfo, hw: Hardware, moreMemory: real)
    requires moreMemory >= hw.gpuMemoryGb
    requires Select(model, hw) == Vllm
    ensures Select(model, hw.(gpuMemoryGb := moreMemory)) == Vllm
  {
  }

  /** A larger model, everything else equal, never turns transformers into vLLM. */
  lemma SelectAntitoneInSize(model: ModelInfo, hw: Hardware, largerSize: real)
    requires largerSize >= model.sizeGb
    requires Select(model, hw) == Transformers
    ensures Select(model.(sizeGb := largerSize), hw) == Transformers
  {
  }

  /** The override is returned whatever the descriptors say. */
  lemma ForceAlwaysWins(model: ModelInfo, hw: Hardware, e: Engine)
    ensures Select(model, hw, Some(e)) == e
  {
  }

  /** A 14 GB model: 21 GB (exactly 1.5x) and 24 GB give transformers, 28 GB (exactly 2.0x) and 32 GB give vLLM. */
  lemma BoundaryExamples()
    ensures var model := ModelInfo("qwen/Qwen-7B", 14.0, "safetensors", "modelscope", "qwen2");
      && Select(model, Hardware(21.0, 1, 16, 64.0, "nvidia")) == Transformers
      && Select(model, Hardware(24.0, 1, 16, 64.0, "nvidia")) == Transformers
      && Select(model, Hardware(16.0, 1, 16, 64.0, "nvidia")) == Transformers
      && Select(model, Hardware(28.0, 1, 16, 64.0, "nvidia")) == Vllm
      && Select(model, Hardware(32.0, 1, 16, 64.0, "nvidia")) == Vllm
      && Select(model, Hardware(32.0, 1, 16, 64.0, "nvidia"), Some(Transformers)) == Transformers
      && Select(model, Hardware(0.0, 0, 16, 64.0, "none")) == Transformers
      && Select(model, Hardware(80.0, 1, 16, 64.0, "amd")) == Transformers
  {
  }
}
