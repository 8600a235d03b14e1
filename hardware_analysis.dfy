/** `HardwareAnalyzer.analyze`: default the vendor and GPU count, then build the descriptor. */
module HardwareAnalysis {
  import opened Results
  import opened Errors
  import opened HardwareSpecs

  const DefaultCpuCores: int := 8
  const DefaultRamGb: real := 16.0

  /** Rule 1: GPU memory with vendor "none" means an NVIDIA GPU. */
  function DefaultVendor(gpuMemoryGb: real, gpuVendor: string): (v: string)
    ensures gpuVendor != "none" ==> v == gpuVendor
    ensures gpuMemoryGb <= 0.0 ==> v == gpuVendor
    ensures gpuMemoryGb > 0.0 && gpuVendor == "none" ==> v == "nvidia"
    ensures gpuMemoryGb > 0.0 ==> v != "none"
    ensures v in Vendors <==> gpuVendor in Vendors
  {
    if gpuMemoryGb > 0.0 && gpuVendor == "none" then "nvidia" else gpuVendor
  }

  /** Rule 2: GPU memory with a count of 0 means one GPU. */
  function DefaultCount(gpuMemoryGb: real, gpuCount: int): (n: int)
    ensures gpuCount != 0 ==> n == gpuCount
    ensures gpuMemoryGb <= 0.0 ==> n == gpuCount
    ensures gpuMemoryGb > 0.0 && gpuCount == 0 ==> n == 1
    ensures gpuMemoryGb > 0.0 && gpuCount >= 0 ==> n > 0
    ensures n >= 0 <==> gpuCount >= 0
  {
    if gpuMemoryGb > 0.0 && gpuCount == 0 then 1 else gpuCount
  }

  /**
   * The two defaulting rules, in order, then `Hardware(...)`.  The only error
   * is the descriptor's validation error, and it is exactly the one the raw
   * inputs would raise: the defaults never repair an invalid input nor break
   * a valid one.
   */
  function Analyze(
    gpuMemoryGb: real := 0.0,
    gpuCount: int := 0,
    cpuCores: int := DefaultCpuCores,
    ramGb: real := DefaultRamGb,
    gpuVendor: string := "none")
    : (r: Result<Hardware, Error>)
    ensures r.Success? <==> Hardware(gpuMemoryGb, gpuCount, cpuCores, ramGb, gpuVendor).Valid()
    ensures r.Failure? ==> r == NewHardware(gpuMemoryGb, gpuCount, cpuCores, ramGb, gpuVendor)
    ensures r.Failure? ==> r.error.Validation?
    ensures r.Success? ==> r.value.Valid()
    ensures r.Success? ==> && r.value.gpuMemoryGb == gpuMemoryGb
                           && r.value.cpuCores == cpuCores
                           && r.value.ramGb == ramGb
    ensures r.Success? && gpuVendor != "none" ==> r.value.gpuVendor == gpuVendor
    ensures r.Success? && gpuMemoryGb > 0.0 && gpuVendor == "none" ==> r.value.gpuVendor == "nvidia"
    ensures r.Success? && gpuCount != 0 ==> r.value.gpuCount == gpuCount
    ensures r.Success? && gpuMemoryGb > 0.0 && gpuCount == 0 ==> r.value.gpuCount == 1
    ensures r.Success? && gpuMemoryGb > 0.0 ==> r.value.HasGpu()
    ensures r.Success? && gpuMemoryGb == 0.0 ==>
      r.value == Hardware(gpuMemoryGb, gpuCount, cpuCores, ramGb, gpuVendor)
  {
    var vendor := DefaultVendor(gpuMemoryGb, gpuVendor);
    var count := DefaultCount(gpuMemoryGb, gpuCount);
    NewHardware(gpuMemoryGb, count, cpuCores, ramGb, vendor)
  }

  /** GPU memory given with vendor "none" yields an NVIDIA vendor; with count 0, one GPU. */
  lemma DefaultsApplied(gpuMemoryGb: real, cpuCores: int, ramGb: real)
    requires gpuMemoryGb > 0.0 && cpuCores > 0 && ramGb > 0.0
    ensures Analyze(gpuMemoryGb, 0, cpuCores, ramGb, "none")
      == Success(Hardware(gpuMemoryGb, 1, cpuCores, ramGb, "nvidia"))
  {
  }

  /** The analyzer's tests, including the all-defaults CPU-only descriptor. */
  lemma AnalyzeExamples()
    ensures Analyze() == Success(Hardware(0.0, 0, 8, 16.0, "none"))
    ensures !Analyze().value.HasGpu()
    ensures Analyze(cpuCores := 8, ramGb := 16.0) == Analyze()
    ensures Analyze(gpuMemoryGb := 24.0, gpuCount := 1, cpuCores := 16, ramGb := 64.0)
      == Success(Hardware(24.0, 1, 16, 64.0, "nvidia"))
    ensures Analyze(gpuMemoryGb := 16.0) == Success(Hardware(16.0, 1, 8, 16.0, "nvidia"))
    ensures Analyze(gpuMemoryGb := 16.0, gpuVendor := "amd") == Success(Hardware(16.0, 1, 8, 16.0, "amd"))
    ensures Analyze(gpuMemoryGb := 16.0, ramGb := 0.0) == Failure(Validation(InvalidRam(0.0)))
    ensures Analyze(gpuMemoryGb := 16.0, gpuVendor := "intel")
      == Failure(Validation(UnsupportedGpuVendor("intel")))
  {
  }
}
