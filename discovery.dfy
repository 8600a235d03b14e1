/**
 * `ModelDiscovery`: ModelScope first, HuggingFace only after a request
 * failure, and the derivation of a `ModelInfo` from a registry's answer.
 * The registry clients are HTTP wrappers; each is modelled by the two
 * answers it can give for an identifier: the parsed JSON or the reason of a
 * `requests.RequestException`.
 */
module Discovery {
  import opened Results
  import opened Errors
  import opened Text
  import opened ModelInfos

  const SafetensorsSuffix: string := ".safetensors"
  /** The binary gigabyte, `1024**3`. */
  const BytesPerGiB: int := 1073741824
  const UnknownArchitecture: string := "unknown"

  /** The registry's model-info JSON object, string-valued entries only. */
  type Metadata = map<string, string>

  /** One entry of the file listing; either key may be absent. */
  datatype FileEntry = FileEntry(path: Option<string>, size: Option<int>)

  /** `get_model_info` and `get_model_files`; `Failure(reason)` is a request error. */
  datatype Registry = Registry(
    getModelInfo: string -> Result<Metadata, string>,
    getModelFiles: string -> Result<seq<FileEntry>, string>)

  /** The two clients that `ModelDiscovery.__init__` creates. */
  datatype Registries = Registries(modelscope: Registry, huggingface: Registry)

  /** `d.get(key, default)`. */
  function Get(info: Metadata, key: string, default: string): (v: string)
    ensures key in info ==> v == info[key]
    ensures key !in info ==> v == default
  {
    if key in info then info[key] else default
  }

  /** A registry call: its request error becomes `Request`. */
  function Call<T>(answer: Result<T, string>): (r: Result<T, Error>)
    ensures answer.Success? <==> r.Success?
    ensures answer.Success? ==> r.value == answer.value
    ensures answer.Failure? ==> r.error == Request(answer.error)
  {
    match answer
    case Success(v) => Success(v)
    case Failure(reason) => Failure(Request(reason))
  }

  // ---------------------------------------------------------------- format

  /** `f.get("path", "")`. */
  function PathOrEmpty(f: FileEntry): string {
    match f.path
    case Some(p) => p
    case None => ""
  }

  predicate IsSafetensors(f: FileEntry) {
    EndsWith(PathOrEmpty(f), SafetensorsSuffix)
  }

  /** HuggingFace's `any(f.get("path", "").endswith(".safetensors") for f in files)`. */
  predicate AnySafetensors(files: seq<FileEntry>)
    ensures (forall i | 0 <= i < |files| :: files[i].path.None?) ==> !AnySafetensors(files)
    ensures AnySafetensors(files) ==> exists i | 0 <= i < |files| :: files[i].path.Some?
  {
    exists i | 0 <= i < |files| :: IsSafetensors(files[i])
  }

  predicate AllPathsPresent(files: seq<FileEntry>) {
    forall i | 0 <= i < |files| :: files[i].path.Some?
  }

  /**
   * ModelScope's `any(f["path"].endswith(".safetensors") for f in files)`.
   * The entries are looked at left to right and the scan stops at the first
   * hit, so a missing "path" raises `KeyError` only if no earlier entry is a
   * `.safetensors` file.
   */
  function AnySafetensorsStrict(files: seq<FileEntry>): (r: Result<bool, Error>)
    ensures AllPathsPresent(files) ==> r == Success(AnySafetensors(files))
    ensures r == Success(true) ==> AnySafetensors(files)
    ensures r == Success(false) ==> !AnySafetensors(files) && AllPathsPresent(files)
    ensures r.Failure? ==> r.error == MissingKey("path") && !AllPathsPresent(files)
    decreases |files|
  {
    if files == [] then Success(false)
    else match files[0].path
      case None => Failure(MissingKey("path"))
      case Some(p) =>
        if EndsWith(p, SafetensorsSuffix) then Success(true)
        else
          var rest := AnySafetensorsStrict(files[1..]);
          assert forall i | 1 <= i < |files| :: files[i] == files[1..][i - 1];
          rest
  }

  /** The scan of a concatenation finishes the first part before it starts the second. */
  lemma {:induction false} AnySafetensorsStrictAppend(a: seq<FileEntry>, b: seq<FileEntry>)
    ensures AnySafetensorsStrict(a + b)
      == if AnySafetensorsStrict(a) == Success(false) then AnySafetensorsStrict(b) else AnySafetensorsStrict(a)
    decreases |a|
  {
    if a == [] {
      assert a + b == b;
    } else {
      assert (a + b)[0] == a[0];
      assert (a + b)[1..] == a[1..] + b;
      AnySafetensorsStrictAppend(a[1..], b);
    }
  }

  /** "safetensors" when a safetensors file is listed, else "pytorch". */
  function FormatOf(hasSafetensors: bool): (format: string)
    ensures format in Formats
    ensures format == "safetensors" <==> hasSafetensors
  {
    if hasSafetensors then "safetensors" else "pytorch"
  }

  // ------------------------------------------------------------------ size

  /** `f.get("size", 0)`. */
  function SizeOrZero(f: FileEntry): int {
    match f.size
    case Some(n) => n
    case None => 0
  }

  /** `sum(f.get("size", 0) for f in files)`. */
  function TotalBytes(files: seq<FileEntry>): (total: int)
    ensures (forall i | 0 <= i < |files| :: SizeOrZero(files[i]) >= 0) ==> total >= 0
    ensures (forall i | 0 <= i < |files| :: files[i].size.None?) ==> total == 0
    decreases |files|
  {
    if files == [] then 0
    else
      assert forall i | 1 <= i < |files| :: files[i] == files[1..][i - 1];
      SizeOrZero(files[0]) + TotalBytes(files[1..])
  }

  /** The total of a concatenation is the sum of the totals. */
  lemma {:induction false} TotalBytesAppend(a: seq<FileEntry>, b: seq<FileEntry>)
    ensures TotalBytes(a + b) == TotalBytes(a) + TotalBytes(b)
    decreases |a|
  {
    if a == [] {
      assert a + b == b;
    } else {
      assert (a + b)[0] == a[0];
      assert (a + b)[1..] == a[1..] + b;
      TotalBytesAppend(a[1..], b);
    }
  }

  /**
   * `round(total / 1024**3, 2)` counted in hundredths: the integer nearest to
   * `total * 100 / 1024**3`, ties to even as Python's `round` does.
   */
  function Hundredths(totalBytes: int): (h: int)
    ensures -BytesPerGiB <= 2 * (totalBytes * 100 - h * BytesPerGiB) <= BytesPerGiB
    ensures 2 * (totalBytes * 100 - h * BytesPerGiB) == BytesPerGiB ==> h % 2 == 0
    ensures 2 * (totalBytes * 100 - h * BytesPerGiB) == -BytesPerGiB ==> h % 2 == 0
    ensures totalBytes >= 0 ==> h >= 0
  {
    var n := totalBytes * 100;
    var q := n / BytesPerGiB;
    var rem := n % BytesPerGiB;
    assert n == q * BytesPerGiB + rem && 0 <= rem < BytesPerGiB;
    assert n - q * BytesPerGiB == rem;
    assert n - (q + 1) * BytesPerGiB == rem - BytesPerGiB;
    assert totalBytes >= 0 ==> q >= 0;
    if 2 * rem < BytesPerGiB then q
    else if 2 * rem > BytesPerGiB then q + 1
    else if q % 2 == 0 then q
    else q + 1
  }

  /** The model size in binary gigabytes, to two decimals. */
  function SizeGb(totalBytes: int): (gb: real)
    ensures -0.005 <= gb - totalBytes as real / BytesPerGiB as real <= 0.005
    ensures gb * 100.0 == Hundredths(totalBytes) as real
  {
    var h := Hundredths(totalBytes);
    assert -BytesPerGiB as real <= 2.0 * (totalBytes as real * 100.0 - h as real * BytesPerGiB as real)
                              <= BytesPerGiB as real;
    h as real / 100.0
  }

  /** Two 7,000,000,000-byte files make 13.04 GB. */
  lemma SizeExample()
    ensures TotalBytes([FileEntry(Some("model-00001.safetensors"), Some(7000000000)),
                        FileEntry(Some("model-00002.safetensors"), Some(7000000000))]) == 14000000000
    ensures Hundredths(14000000000) == 1304
    ensures SizeGb(14000000000) == 13.04
  {
  }

  // ------------------------------------------------------------ derivation

  /**
   * What a successful registry answer determines: the queried identifier,
   * the registry's tag, the format from the suffix test, the rounded total
   * size and the architecture under `archKey`.
   */
  predicate DerivedFrom(m: ModelInfo, modelId: string, repoType: string, archKey: string,
                        info: Metadata, files: seq<FileEntry>)
  {
    && m.modelId == modelId
    && m.repoType == repoType
    && (m.format == "safetensors" <==> AnySafetensors(files))
    && m.sizeGb == SizeGb(TotalBytes(files))
    && m.architecture == Get(info, archKey, UnknownArchitecture)
  }

  /** `_discover_modelscope`. */
  function DiscoverModelScope(ms: Registry, modelId: string): (r: Result<ModelInfo, Error>)
    ensures r.Success? ==>
      && ms.getModelInfo(modelId).Success? && ms.getModelFiles(modelId).Success?
      && DerivedFrom(r.value, modelId, "modelscope", "model_type",
                     ms.getModelInfo(modelId).value, ms.getModelFiles(modelId).value)
      && r.value.Valid()
    ensures ms.getModelInfo(modelId).Failure? ==> r == Failure(Request(ms.getModelInfo(modelId).error))
    ensures ms.getModelInfo(modelId).Success? && ms.getModelFiles(modelId).Failure? ==>
      r == Failure(Request(ms.getModelFiles(modelId).error))
    ensures r.Failure? && r.error.Request? ==>
      ms.getModelInfo(modelId).Failure? || ms.getModelFiles(modelId).Failure?
    ensures r.Failure? ==>
      r.error.Request? || r.error == MissingKey("path") || r.error.Validation?
    ensures (ms.getModelInfo(modelId).Success? && ms.getModelFiles(modelId).Success?
             && AllPathsPresent(ms.getModelFiles(modelId).value)
             && SizeGb(TotalBytes(ms.getModelFiles(modelId).value)) > 0.0) ==> r.Success?
    ensures ms.getModelInfo(modelId).Success? && ms.getModelFiles(modelId).Success? ==>
      var files := ms.getModelFiles(modelId).value;
      var gb := SizeGb(TotalBytes(files));
      && (AnySafetensorsStrict(files).Failure? ==> r == Failure(MissingKey("path")))
      && (AnySafetensorsStrict(files).Success? ==> (r.Success? <==> gb > 0.0))
      && (AnySafetensorsStrict(files).Success? && gb <= 0.0 ==> r == Failure(Validation(InvalidModelSize(gb))))
  {
    var info :- Call(ms.getModelInfo(modelId));
    var files :- Call(ms.getModelFiles(modelId));
    var hasSafetensors :- AnySafetensorsStrict(files);
    NewModelInfo(modelId, SizeGb(TotalBytes(files)), FormatOf(hasSafetensors), "modelscope",
                 Get(info, "model_type", UnknownArchitecture))
  }

  /** `_discover_huggingface`: a missing "path" counts as "". */
  function DiscoverHuggingFace(hf: Registry, modelId: string): (r: Result<ModelInfo, Error>)
    ensures r.Success? ==>
      && hf.getModelInfo(modelId).Success? && hf.getModelFiles(modelId).Success?
      && DerivedFrom(r.value, modelId, "huggingface", "pipeline_tag",
                     hf.getModelInfo(modelId).value, hf.getModelFiles(modelId).value)
      && r.value.Valid()
    ensures hf.getModelInfo(modelId).Failure? ==> r == Failure(Request(hf.getModelInfo(modelId).error))
    ensures hf.getModelInfo(modelId).Success? && hf.getModelFiles(modelId).Failure? ==>
      r == Failure(Request(hf.getModelFiles(modelId).error))
    ensures r.Failure? && r.error.Request? ==>
      hf.getModelInfo(modelId).Failure? || hf.getModelFiles(modelId).Failure?
    ensures r.Failure? ==> r.error.Request? || r.error.Validation?
    ensures (hf.getModelInfo(modelId).Success? && hf.getModelFiles(modelId).Success?
             && SizeGb(TotalBytes(hf.getModelFiles(modelId).value)) > 0.0) ==> r.Success?
    ensures hf.getModelInfo(modelId).Success? && hf.getModelFiles(modelId).Success? ==>
      var gb := SizeGb(TotalBytes(hf.getModelFiles(modelId).value));
      gb <= 0.0 ==> r == Failure(Validation(InvalidModelSize(gb)))
  {
    var info :- Call(hf.getModelInfo(modelId));
    var files :- Call(hf.getModelFiles(modelId));
    NewModelInfo(modelId, SizeGb(TotalBytes(files)), FormatOf(AnySafetensors(files)), "huggingface",
                 Get(info, "pipeline_tag", UnknownArchitecture))
  }

  // ------------------------------------------------------------- discovery

  const NotFoundPhrase: string := "not found"

  /** `f"Model {model_id} not found in ModelScope or HuggingFace"`. */
  function NotFoundMessage(modelId: string): (msg: string)
    ensures OccursAt(msg, modelId, |"Model "|)
    ensures OccursAt(msg, NotFoundPhrase, |"Model "| + |modelId| + 1)
  {
    "Model " + modelId + " " + NotFoundPhrase + " in ModelScope or HuggingFace"
  }

  /** The not-found message names the model and says "not found". */
  lemma NotFoundMessageNamesModel(modelId: string)
    ensures Contains(NotFoundMessage(modelId), modelId)
    ensures Contains(NotFoundMessage(modelId), NotFoundPhrase)
  {
    var msg := NotFoundMessage(modelId);
    assert OccursAt(msg, modelId, 6);
    assert OccursAt(msg, NotFoundPhrase, 6 + |modelId| + 1);
  }

  /**
   * `discover`: ModelScope's answer, unless it failed with a request error;
   * then HuggingFace's answer, unless that failed with a request error too,
   * which becomes `ModelNotFoundError`.  Any other error propagates as it is.
   */
  function Discover(regs: Registries, modelId: string): (r: Result<ModelInfo, Error>)
    ensures var ms := DiscoverModelScope(regs.modelscope, modelId);
      var hf := DiscoverHuggingFace(regs.huggingface, modelId);
      && (ms.Success? ==> r == ms)
      && (ms.Failure? && !ms.error.Request? ==> r == ms)
      && (ms.Failure? && ms.error.Request? ==>
            if hf.Failure? && hf.error.Request?
            then r == Failure(ModelNotFound(NotFoundMessage(modelId)))
            else r == hf)
    ensures r.Failure? ==> !r.error.Request?
    ensures r.Success? ==> r.value.modelId == modelId && r.value.Valid()
    ensures r.Success? && r.value.repoType == "huggingface" ==>
      DiscoverModelScope(regs.modelscope, modelId).Failure?
      && DiscoverModelScope(regs.modelscope, modelId).error.Request?
  {
    match DiscoverModelScope(regs.modelscope, modelId)
    case Success(m) => Success(m)
    case Failure(e) =>
      if !e.Request? then Failure(e)
      else match DiscoverHuggingFace(regs.huggingface, modelId)
        case Success(m) => Success(m)
        case Failure(e2) =>
          if e2.Request? then Failure(ModelNotFound(NotFoundMessage(modelId))) else Failure(e2)
  }

  /** Once ModelScope has answered (or failed other than by a request error), HuggingFace plays no part. */
  lemma HuggingFaceNotConsulted(regs: Registries, other: Registry, modelId: string)
    requires var ms := DiscoverModelScope(regs.modelscope, modelId); !(ms.Failure? && ms.error.Request?)
    ensures Discover(regs, modelId) == Discover(regs.(huggingface := other), modelId)
  {
  }

  /** Both registries failing by request errors gives a not-found error naming the model. */
  lemma BothFailNotFound(regs: Registries, modelId: string)
    requires regs.modelscope.getModelInfo(modelId).Failure?
    requires regs.huggingface.getModelInfo(modelId).Failure?
    ensures Discover(regs, modelId).Failure?
    ensures Discover(regs, modelId).error.ModelNotFound?
    ensures Contains(Discover(regs, modelId).error.message, modelId)
  {
    NotFoundMessageNamesModel(modelId);
  }

  /** A missing "path" after a listed `.safetensors` file goes unread; before one it raises. */
  lemma StrictScanExamples()
    ensures AnySafetensorsStrict([FileEntry(Some("a.safetensors"), None), FileEntry(None, Some(1))])
      == Success(true)
    ensures AnySafetensorsStrict([FileEntry(None, Some(1)), FileEntry(Some("a.safetensors"), None)])
      == Failure(MissingKey("path"))
  {
  }

  /** ModelScope lists two 7,000,000,000-byte safetensors shards of a "qwen2" model. */
  lemma DiscoverFromModelScopeExample(hf: Registry)
    ensures var ms := Registry(
        _ => Success(map["model_type" := "qwen2"]),
        _ => Success([FileEntry(Some("model-00001.safetensors"), Some(7000000000)),
                      FileEntry(Some("model-00002.safetensors"), Some(7000000000))]));
      Discover(Registries(ms, hf), "qwen/Qwen-7B")
        == Success(ModelInfo("qwen/Qwen-7B", 13.04, "safetensors", "modelscope", "qwen2"))
  {
    SizeExample();
  }

  /** ModelScope times out; HuggingFace lists one 14,000,000,000-byte PyTorch file. */
  lemma FallbackToHuggingFaceExample()
    ensures var ms := Registry(_ => Failure("Connection timeout"), _ => Success([]));
      var hf := Registry(
        _ => Success(map["pipeline_tag" := "text-generation"]),
        _ => Success([FileEntry(Some("pytorch_model.bin"), Some(14000000000))]));
      Discover(Registries(ms, hf), "meta-llama/Llama-2-7b")
        == Success(ModelInfo("meta-llama/Llama-2-7b", 13.04, "pytorch", "huggingface", "text-generation"))
  {
    assert TotalBytes([FileEntry(Some("pytorch_model.bin"), Some(14000000000))]) == 14000000000;
    SizeExample();
  }

  /** Both registries answer "Not found". */
  lemma NotFoundExample()
    ensures var down := Registry(_ => Failure("Not found"), _ => Failure("Not found"));
      Discover(Registries(down, down), "nonexistent/model")
        == Failure(ModelNotFound("Model " + "nonexistent/model" + " " + "not found" + " in ModelScope or HuggingFace"))
  {
  }

  /** A `KeyError` from ModelScope's listing is not a request error: no fallback. */
  lemma MissingPathNoFallback(hf: Registry, modelId: string)
    ensures var ms := Registry(_ => Success(map[]), _ => Success([FileEntry(None, Some(1))]));
      Discover(Registries(ms, hf), modelId) == Failure(MissingKey("path"))
  {
  }

  /** A listing that rounds to 0.00 GB fails validation, again without fallback. */
  lemma ZeroSizeNoFallback(hf: Registry, modelId: string)
    ensures var ms := Registry(_ => Success(map[]), _ => Success([FileEntry(Some("tiny.bin"), Some(1000))]));
      Discover(Registries(ms, hf), modelId) == Failure(Validation(InvalidModelSize(0.0)))
  {
    assert Hundredths(1000) == 0;
  }
}
