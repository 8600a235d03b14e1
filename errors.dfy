/**
 * The exceptions the core can raise.  `ModelNotFound` is the package's own
 * `ModelNotFoundError`; the other three are Python's `ValueError` (raised by
 * the descriptors' validation), `requests.RequestException` (raised by the
 * registry clients) and `KeyError` (raised by a dictionary subscript).
 * `DockerError` and `BuildError` come from the image build and export, which
 * are not part of this model.
 */
module Errors {

  /** One violated descriptor invariant, carrying the offending value. */
  datatype Violation =
    | InvalidModelSize(sizeGb: real)
    | UnsupportedFormat(format: string)
    | UnsupportedRepoType(repoType: string)
    | InvalidGpuMemory(gpuMemoryGb: real)
    | InvalidGpuCount(gpuCount: int)
    | InvalidCpuCores(cpuCores: int)
    | InvalidRam(ramGb: real)
    | UnsupportedGpuVendor(gpuVendor: string)
  {
    /** The fixed text before the colon in the `ValueError` message. */
    function Label(): string {
      match this
      case InvalidModelSize(_) => "Invalid model size"
      case UnsupportedFormat(_) => "Unsupported format"
      case UnsupportedRepoType(_) => "Unsupported repo type"
      case InvalidGpuMemory(_) => "Invalid GPU memory"
      case InvalidGpuCount(_) => "Invalid GPU count"
      case InvalidCpuCores(_) => "Invalid CPU cores"
      case InvalidRam(_) => "Invalid RAM"
      case UnsupportedGpuVendor(_) => "Unsupported GPU vendor"
    }
  }

  datatype Error =
    | Validation(violation: Violation)
    | Request(reason: string)
    | MissingKey(key: string)
    | ModelNotFound(message: string)
}
