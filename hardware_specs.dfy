/** The validated `Hardware` descriptor (a frozen dataclass in the source). */
module HardwareSpecs {
  import opened Results
  import opened Errors

  const Vendors: set<string> := {"nvidia", "amd", "none"}

  /** The raw field values; the Python class admits only the values `NewHardware` accepts. */
  datatype Hardware = Hardware(
    gpuMemoryGb: real,
    gpuCount: int,
    cpuCores: int,
    ramGb: real,
    gpuVendor: string)
  {
    /** The invariants `__post_init__` enforces. */
    predicate Valid() {
      && gpuMemoryGb >= 0.0
      && gpuCount >= 0
      && cpuCores > 0
      && ramGb > 0.0
      && gpuVendor in Vendors
    }

    /** The `has_gpu` property: on a valid descriptor, an NVIDIA or AMD vendor with at least one GPU. */
    predicate HasGpu()
      ensures Valid() ==> (HasGpu() <==> gpuVendor in Vendors - {"none"} && gpuCount >= 1)
      ensures HasGpu() ==> gpuCount > 0
    {
      gpuVendor != "none" && gpuCount > 0
    }
  }

  /** Every invariant `h` breaks, in the order the checks are written. */
  function Violations(h: Hardware): (vs: seq<Violation>)
    ensures vs == [] <==> h.Valid()
    ensures h.gpuMemoryGb < 0.0 ==> InvalidGpuMemory(h.gpuMemoryGb) in vs
    ensures h.gpuCount < 0 ==> InvalidGpuCount(h.gpuCount) in vs
    ensures h.cpuCores <= 0 ==> InvalidCpuCores(h.cpuCores) in vs
    ensures h.ramGb <= 0.0 ==> InvalidRam(h.ramGb) in vs
    ensures h.gpuVendor !in Vendors ==> UnsupportedGpuVendor(h.gpuVendor) in vs
    ensures h.gpuMemoryGb < 0.0 ==> vs[0] == InvalidGpuMemory(h.gpuMemoryGb)
    ensures h.gpuMemoryGb >= 0.0 && h.gpuCount < 0 ==> vs[0] == InvalidGpuCount(h.gpuCount)
    ensures h.gpuMemoryGb >= 0.0 && h.gpuCount >= 0 && h.cpuCores <= 0 ==> vs[0] == InvalidCpuCores(h.cpuCores)
    ensures h.gpuMemoryGb >= 0.0 && h.gpuCount >= 0 && h.cpuCores > 0 && h.ramGb <= 0.0 ==>
      vs[0] == InvalidRam(h.ramGb)
    ensures h.gpuMemoryGb >= 0.0 && h.gpuCount >= 0 && h.cpuCores > 0 && h.ramGb > 0.0 && h.gpuVendor !in Vendors ==>
      vs == [UnsupportedGpuVendor(h.gpuVendor)]
  {
    (if h.gpuMemoryGb < 0.0 then [InvalidGpuMemory(h.gpuMemoryGb)] else [])
    + (if h.gpuCount < 0 then [InvalidGpuCount(h.gpuCount)] else [])
    + (if h.cpuCores <= 0 then [InvalidCpuCores(h.cpuCores)] else [])
    + (if h.ramGb <= 0.0 then [InvalidRam(h.ramGb)] else [])
    + (if h.gpuVendor !in Vendors then [UnsupportedGpuVendor(h.gpuVendor)] else [])
  }

  /**
   * `Hardware(...)` followed by `__post_init__`: the guards run in order and
   * the first that fails raises.  Success keeps every field as given; failure
   * reports the first violated invariant.
   */
  function NewHardware(gpuMemoryGb: real, gpuCount: int, cpuCores: int, ramGb: real, gpuVendor: string)
    : (r: Result<Hardware, Error>)
    ensures var h := Hardware(gpuMemoryGb, gpuCount, cpuCores, ramGb, gpuVendor);
      && (r.Success? <==> h.Valid())
      && (r.Success? ==> r.value == h)
      && (r.Failure? ==> r.error == Validation(Violations(h)[0]))
  {
    if gpuMemoryGb < 0.0 then Failure(Validation(InvalidGpuMemory(gpuMemoryGb)))
    else if gpuCount < 0 then Failure(Validation(InvalidGpuCount(gpuCount)))
    else if cpuCores <= 0 then Failure(Validation(InvalidCpuCores(cpuCores)))
    else if ramGb <= 0.0 then Failure(Validation(InvalidRam(ramGb)))
    else if gpuVendor !in Vendors then Failure(Validation(UnsupportedGpuVendor(gpuVendor)))
    else Success(Hardware(gpuMemoryGb, gpuCount, cpuCores, ramGb, gpuVendor))
  }

  /** A single violated invariant is reported with its own error kind. */
  lemma SingleViolationReported(gpuMemoryGb: real, gpuCount: int, cpuCores: int, ramGb: real, gpuVendor: string)
    ensures gpuMemoryGb < 0.0 ==>
      NewHardware(gpuMemoryGb, gpuCount, cpuCores, ramGb, gpuVendor)
        == Failure(Validation(InvalidGpuMemory(gpuMemoryGb)))
    ensures gpuMemoryGb >= 0.0 && gpuCount < 0 ==>
      NewHardware(gpuMemoryGb, gpuCount, cpuCores, ramGb, gpuVendor)
        == Failure(Validation(InvalidGpuCount(gpuCount)))
    ensures gpuMemoryGb >= 0.0 && gpuCount >= 0 && cpuCores <= 0 ==>
      NewHardware(gpuMemoryGb, gpuCount, cpuCores, ramGb, gpuVendor)
        == Failure(Validation(InvalidCpuCores(cpuCores)))
    ensures gpuMemoryGb >= 0.0 && gpuCount >= 0 && cpuCores > 0 && ramGb <= 0.0 ==>
      NewHardware(gpuMemoryGb, gpuCount, cpuCores, ramGb, gpuVendor)
        == Failure(Validation(InvalidRam(ramGb)))
    ensures gpuMemoryGb >= 0.0 && gpuCount >= 0 && cpuCores > 0 && ramGb > 0.0 && gpuVendor !in Vendors ==>
      NewHardware(gpuMemoryGb, gpuCount, cpuCores, ramGb, gpuVendor)
        == Failure(Validation(UnsupportedGpuVendor(gpuVendor)))
  {
  }

  /** Zero GPU memory and zero GPUs are accepted; zero CPU cores or RAM are not. */
  lemma ZeroBoundaries()
    ensures NewHardware(0.0, 0, 8, 16.0, "none").Success?
    ensures NewHardware(0.0, 0, 0, 16.0, "none") == Failure(Validation(InvalidCpuCores(0)))
    ensures NewHardware(0.0, 0, 8, 0.0, "none") == Failure(Validation(InvalidRam(0.0)))
    ensures NewHardware(-1.0, 1, 8, 16.0, "nvidia").error.violation.Label() == "Invalid GPU memory"
  {
  }

  /** The `has_gpu` cases the descriptor's tests pin down. */
  lemma HasGpuExamples(count: int)
    ensures Hardware(24.0, 1, 16, 64.0, "nvidia").HasGpu()
    ensures !Hardware(0.0, 0, 8, 16.0, "none").HasGpu()
    ensures !Hardware(80.0, count, 8, 16.0, "none").HasGpu()
    ensures count <= 0 ==> !Hardware(80.0, count, 8, 16.0, "amd").HasGpu()
  {
  }
}
