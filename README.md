# ezrunner decision pipeline in Dafny

ezrunner packs a machine-learning model into a runnable container image. It
finds the model on ModelScope or HuggingFace, turns the target hardware into a
validated descriptor, picks an inference engine (`transformers` or `vllm`) and
renders a Dockerfile. This project models the pure decision logic between the
network and the Docker layers, and proves properties of that model:

- the two validated descriptors `ModelInfo` and `Hardware`, with their
  guard-ordered `ValueError`s and the derived `has_gpu`;
- the hardware analyzer's two defaulting rules (vendor, then GPU count);
- the first-match engine policy with its 1.5x and 2.0x memory thresholds,
  over `real` and exact at the boundaries;
- discovery: ModelScope first, HuggingFace only after a request error, and
  `ModelNotFoundError` when both fail that way. It also covers how a
  registry's answer becomes a `ModelInfo` (format, rounded size,
  architecture);
- the `Engine` enum and its tags, the sanitised model name and template name
  used by the Dockerfile generator, and two one-liners of the `pack` command
  (the `auto` engine token and the image tag).

Modules follow the source files: `Engines` (models/engine.py),
`HardwareSpecs` (models/hardware.py), `ModelInfos` (models/model_info.py),
`HardwareAnalysis` (core/hardware.py), `EngineSelection` (core/engine.py),
`Discovery` (core/discovery.py), `Dockerfile` (core/dockerfile.py) and `Cli`
(the two lines of cli.py). Three helper modules support them: `Results`
(Option/Result), `Errors` (`ModelNotFoundError` from exceptions.py, plus the
`ValueError`, `RequestException` and `KeyError` the core raises; `DockerError`
and `BuildError` belong to the build and export steps, which are left out)
and `Text` (string predicates). Every exception the validation and discovery
code raises is a `Failure` value; `Engine(tag)`'s `ValueError` for an unknown
tag is `None` from `Engines.FromValue`. The registry clients
are parameters: each `Registry` holds two total functions from a model
identifier to either the parsed JSON or the reason of a
`requests.RequestException`.

Behaviour of the code worth noting:

- Discovery falls back to HuggingFace only on a `requests.RequestException`.
  A `KeyError` from a listing entry without `"path"` (ModelScope only) and a
  `ValueError` for a size that rounds to 0.00 GB are raised immediately,
  without fallback.
- `ModelNotFoundError` arises only when both registries fail with request
  errors. An empty file listing gives size 0.0 and so an "Invalid model
  size" error.
- ModelScope's `any(f["path"]...)` stops at the first hit. A missing `"path"`
  after a `.safetensors` entry is therefore never read, and raises nothing.

## Model

| member | source | states |
|---|---|---|
| `Engines.Value` | src/ezrunner/models/engine.py:9-10 | each engine's tag is a non-empty lower-case string, "vllm" exactly for vllm |
| `Engines.Str` | src/ezrunner/models/engine.py:12-13 | `str(e)` is `e.value`, one of "transformers" or "vllm" |
| `Engines.FromValue` | src/ezrunner/models/engine.py:6-10 | lookup by value finds an engine exactly when the tag is one of the two values |
| `Engines.ValueRoundTrip` | src/ezrunner/models/engine.py:9-10 | tag then lookup returns the same engine |
| `Engines.ValueInjective` | src/ezrunner/models/engine.py:9-10 | distinct engines have distinct tags |
| `HardwareSpecs.Violations` | src/ezrunner/models/hardware.py:26-35 | contains every broken invariant and is empty iff the descriptor is valid; its first element is the first guard that fails (memory, count, cores, RAM, vendor) |
| `HardwareSpecs.NewHardware` | src/ezrunner/models/hardware.py:18-35 | succeeds iff every invariant holds, keeping all fields; otherwise fails with the first violated guard |
| `HardwareSpecs.SingleViolationReported` | src/ezrunner/models/hardware.py:26-35 | with the earlier guards passing, each broken invariant is reported with its own error kind |
| `HardwareSpecs.ZeroBoundaries` | src/ezrunner/models/hardware.py:26-33 | zero GPU memory and count are accepted; zero CPU cores or RAM are rejected; negative memory gives "Invalid GPU memory" |
| `HardwareSpecs.Hardware.HasGpu` | src/ezrunner/models/hardware.py:37-40 | on a valid descriptor, true iff the vendor is nvidia or amd and there is at least one GPU; never true without a GPU |
| `HardwareSpecs.HasGpuExamples` | src/ezrunner/models/hardware.py:37-40 | `has_gpu` holds for one nvidia GPU, and not for vendor "none" or for a count of 0 or less |
| `ModelInfos.Violations` | src/ezrunner/models/model_info.py:26-31 | contains every broken invariant and is empty iff the record is valid; its first element is the first guard that fails (size, format, repo type) |
| `ModelInfos.NewModelInfo` | src/ezrunner/models/model_info.py:18-31 | succeeds iff size > 0, format and repo type are known, keeping all fields; otherwise fails with the first violated guard (size, format, repo type) |
| `ModelInfos.FreeFieldsUnconstrained` | src/ezrunner/models/model_info.py:18-31 | model id and architecture never change the outcome of construction |
| `ModelInfos.ValidationExamples` | tests/unit/test_models.py:27-60 | valid record kept as given; -1.0 gives "Invalid model size"; "gguf" gives an unsupported-format error; size is checked first |
| `HardwareAnalysis.DefaultVendor` | src/ezrunner/core/hardware.py:30-31 | an explicit vendor other than "none" is kept; with GPU memory, vendor "none" becomes "nvidia"; without GPU memory nothing changes; validity of the vendor is unchanged |
| `HardwareAnalysis.DefaultCount` | src/ezrunner/core/hardware.py:34-35 | a non-zero count is kept; with GPU memory a count of 0 becomes 1; without GPU memory nothing changes; the sign test is unchanged |
| `HardwareAnalysis.Analyze` | src/ezrunner/core/hardware.py:9-43 | succeeds iff the raw inputs are valid; any error is the raw inputs' validation error; memory, cores and RAM pass through; with GPU memory, vendor "none" becomes "nvidia" and count 0 becomes 1, other vendors and counts are kept, and `has_gpu` holds; zero memory changes nothing |
| `HardwareAnalysis.DefaultsApplied` | src/ezrunner/core/hardware.py:30-35 | GPU memory with count 0 and vendor "none" yields one nvidia GPU |
| `HardwareAnalysis.AnalyzeExamples` | src/ezrunner/core/hardware.py:11-15 | all defaults give (0.0, 0, 8, 16.0, "none") without GPU; the analyzer's tests, an amd vendor, zero RAM and an unknown vendor |
| `EngineSelection.Select` | src/ezrunner/core/engine.py:11-45 | force wins; no nvidia GPU gives transformers; below 1.5x size gives transformers; at or above both 1.5x and 2.0x gives vllm; in [1.5x, 2.0x) gives transformers; together the rules decide every input |
| `EngineSelection.SelectCharacterisation` | src/ezrunner/core/engine.py:29-45 | without force and for a valid model, vllm iff nvidia GPU and memory >= 2.0x size; transformers otherwise |
| `EngineSelection.CharacterisationNeedsNonNegativeSize` | src/ezrunner/core/engine.py:37-42 | for a negative size the 1.5x rule rejects hardware that passes the 2.0x rule |
| `EngineSelection.SelectMonotoneInMemory` | src/ezrunner/core/engine.py:33-45 | raising GPU memory never turns vllm into transformers |
| `EngineSelection.SelectAntitoneInSize` | src/ezrunner/core/engine.py:37-45 | growing the model never turns transformers into vllm |
| `EngineSelection.ForceAlwaysWins` | src/ezrunner/core/engine.py:29-30 | a forced engine is returned whatever the descriptors |
| `EngineSelection.BoundaryExamples` | src/ezrunner/core/engine.py:37-42 | 14 GB model: 16, 21 (1.5x) and 24 GB give transformers; 28 (2.0x) and 32 GB give vllm; no GPU, amd, and a forced engine |
| `Discovery.Get` | src/ezrunner/core/discovery.py:68 | `info.get(key, default)`: the entry if present, else the default |
| `Discovery.AnySafetensorsStrict` | src/ezrunner/core/discovery.py:60 | with every path present, the suffix test over all entries; `KeyError("path")` only when some path is missing; true only when a safetensors file exists |
| `Discovery.AnySafetensorsStrictAppend` | src/ezrunner/core/discovery.py:60 | the scan is left to right and stops at the first hit or missing path |
| `Discovery.StrictScanExamples` | src/ezrunner/core/discovery.py:60 | a missing path after a hit is never read; before one it raises |
| `Discovery.AnySafetensors` | src/ezrunner/core/discovery.py:84-86 | a listing whose entries all lack "path" (read as "") has no safetensors file; a hit needs some entry with a path |
| `Discovery.FormatOf` | src/ezrunner/core/discovery.py:61 | a supported format, "safetensors" iff a safetensors file was found |
| `Discovery.TotalBytes` | src/ezrunner/core/discovery.py:64 | non-negative when the sizes are; 0 when every size is missing |
| `Discovery.TotalBytesAppend` | src/ezrunner/core/discovery.py:64 | the total of a concatenation is the sum of the totals |
| `Discovery.Hundredths` | src/ezrunner/core/discovery.py:65-72 | the integer nearest to total*100/1024^3, ties to even |
| `Discovery.SizeGb` | src/ezrunner/core/discovery.py:65-72 | within 0.005 of total/1024^3, and a whole number of hundredths |
| `Discovery.SizeExample` | tests/unit/test_discovery.py:24-33 | two 7,000,000,000-byte files total 14,000,000,000 bytes and 13.04 GB |
| `Discovery.DiscoverModelScope` | src/ezrunner/core/discovery.py:54-76 | success means both calls answered and the record has the queried id, "modelscope", the suffix-derived format, the rounded size and "model_type" or "unknown"; each call's request error is passed on; once both calls answer, a missing path reached before any `.safetensors` hit gives `KeyError("path")`, and otherwise the result succeeds iff the rounded size is positive, failing with "Invalid model size" for that size |
| `Discovery.DiscoverHuggingFace` | src/ezrunner/core/discovery.py:78-102 | the same with "huggingface", "pipeline_tag" and a missing path read as ""; it never raises `KeyError`; once both calls answer, a size rounding to 0.00 GB or less fails with "Invalid model size" for that size |
| `Discovery.NotFoundMessage` | src/ezrunner/core/discovery.py:50-52 | the model id follows "Model ", and "not found" follows the id and a space |
| `Discovery.NotFoundMessageNamesModel` | src/ezrunner/core/discovery.py:50-52 | the not-found message contains the model id and "not found" |
| `Discovery.Discover` | src/ezrunner/core/discovery.py:21-52 | ModelScope's answer unless a request error; then HuggingFace's unless a request error, which becomes `ModelNotFoundError`; no request error escapes; results are valid with the queried id |
| `Discovery.HuggingFaceNotConsulted` | src/ezrunner/core/discovery.py:38-40 | unless ModelScope fails by a request error, the HuggingFace client has no influence |
| `Discovery.BothFailNotFound` | src/ezrunner/core/discovery.py:45-52 | both info calls failing gives a not-found error whose message names the model |
| `Discovery.DiscoverFromModelScopeExample` | tests/unit/test_discovery.py:16-36 | the ModelScope test: 13.04 GB, safetensors, modelscope, qwen2 |
| `Discovery.FallbackToHuggingFaceExample` | tests/unit/test_discovery.py:38-61 | the fallback test: huggingface, pytorch |
| `Discovery.NotFoundExample` | tests/unit/test_discovery.py:63-75 | the not-found test with its exact message |
| `Discovery.MissingPathNoFallback` | src/ezrunner/core/discovery.py:38-60 | a `KeyError` from ModelScope's listing propagates without fallback |
| `Discovery.ZeroSizeNoFallback` | src/ezrunner/core/discovery.py:70-76 | a listing that rounds to 0.00 GB fails validation without fallback |
| `Dockerfile.ReplaceSlashes` | src/ezrunner/core/dockerfile.py:36 | same length, no "/", each "/" becomes "-", every other character kept |
| `Dockerfile.LowerAscii` | src/ezrunner/core/dockerfile.py:36 | same length, each character lower-cased, no upper-case letter left |
| `Dockerfile.ModelName` | src/ezrunner/core/dockerfile.py:36 | same length as the id, no "/" and no upper-case letter; "/" becomes "-", other characters lower-cased |
| `Dockerfile.ModelNameIdempotent` | src/ezrunner/core/dockerfile.py:36 | sanitising a sanitised name changes nothing |
| `Dockerfile.ModelNameOrderIrrelevant` | src/ezrunner/core/dockerfile.py:36 | replacing and lower-casing commute |
| `Dockerfile.ModelNameExample` | tests/unit/test_dockerfile_generator.py:47-61 | "ModelScope/Special-Model" becomes "modelscope-special-model" |
| `Dockerfile.TemplateName` | src/ezrunner/core/dockerfile.py:32 | ends in ".dockerfile" and the rest is the engine's tag |
| `Dockerfile.TemplateNameValues` | src/ezrunner/core/dockerfile.py:32 | "transformers.dockerfile" and "vllm.dockerfile" |
| `Dockerfile.TemplateNameInjective` | src/ezrunner/core/dockerfile.py:32 | distinct engines use distinct templates |
| `Dockerfile.Generate` | src/ezrunner/core/dockerfile.py:19-40 | the renderer receives the engine's template, the unsanitised id, its sanitised name and the port |
| `Dockerfile.GenerateDefaultPortExample` | tests/unit/test_dockerfile_generator.py:47-61 | the port defaults to 8080, beside the raw and sanitised names |
| `Dockerfile.GenerateVllmExample` | tests/unit/test_dockerfile_generator.py:29-45 | vllm template on port 9000 |
| `Cli.ForcedEngine` | src/ezrunner/cli.py:97 | "auto" means no override; any other admitted token is the engine with that tag |
| `Cli.ForcedEngineOfTag` | src/ezrunner/cli.py:97 | an engine's own tag forces that engine |
| `Cli.ImageTag` | src/ezrunner/cli.py:116 | "ezrunner-" followed by exactly `ModelName` of the id: same length plus the prefix, no "/", no upper-case letter |

## Left out

- Registry clients (src/ezrunner/api/): HTTP requests, timeouts and JSON decoding are not modelled. Each client is a total function returning the parsed answer or a request-error reason.
- Registry JSON is typed in the model: info values are strings, a listing entry's `path` is a string and its `size` an integer, each possibly absent. Entries of other JSON types (null, numbers as paths) are not modelled.
- Image build, export, `docker run`, the CLI's argument parsing and progress display, and logging are container-daemon, terminal and logging I/O; they are not part of this model.
- Jinja template lookup and rendering are an external library with external template files. `Dockerfile.Generate` stops at the values handed to the renderer.
- Floating point: sizes and memory are `real`. Python's float products `size_gb * 1.5` and `size_gb * 2.0`, and NaN inputs (which slip through the `< 0` and `<= 0` guards), are not modelled; infinities are not modelled either.
- `Discovery.SizeGb`: the rounding is exact round-half-even on total*100/1024^3. That equals Python's `round(x, 2)` while the byte total is below 2^53. The final conversion of the hundredths to the nearest float is not modelled.
- Validation messages: only the fixed label (e.g. "Invalid GPU memory") is modelled. The offending value is carried in the `Violation` but is not rendered as Python would print it.
- `Dockerfile.LowerAscii`: lower-cases ASCII letters only. Python's Unicode `str.lower()` also changes other letters, and can change a string's length.
- Dataclass frozenness: Dafny datatypes are immutable, so nothing is left to state.
- `raise ... from e` keeps the HuggingFace request error as the cause of `ModelNotFoundError`; the model keeps only the message.
