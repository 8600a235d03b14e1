/** The `Engine` enumeration of inference runtimes and its string tags. */
module Engines {
  import opened Results
  import opened Text

  datatype Engine = Transformers | Vllm

  /** `engine.value`: a non-empty lower-case tag, different for the two engines. */
  function Value(e: Engine): (tag: string)
    ensures tag != []
    ensures forall i | 0 <= i < |tag| :: !IsUpperAscii(tag[i])
    ensures tag == "vllm" <==> e == Vllm
  {
    match e
    case Transformers => "transformers"
    case Vllm => "vllm"
  }

  /** `str(engine)`, which the enum defines as its value. */
  function Str(e: Engine): (r: string)
    ensures r == Value(e)
    ensures r == "transformers" || r == "vllm"
  {
    Value(e)
  }

  /** `Engine(tag)`: lookup by value; an unknown tag raises `ValueError`, here `None`. */
  function FromValue(tag: string): (r: Option<Engine>)
    ensures r.Some? ==> Value(r.value) == tag
    ensures r.None? ==> forall e: Engine :: Value(e) != tag
  {
    if tag == "transformers" then Some(Transformers)
    else if tag == "vllm" then Some(Vllm)
    else None
  }

  /** The tags are distinct, so tag-then-lookup is the identity. */
  lemma ValueRoundTrip(e: Engine)
    ensures FromValue(Value(e)) == Some(e)
  {
  }

  lemma ValueInjective(e1: Engine, e2: Engine)
    ensures Value(e1) == Value(e2) <==> e1 == e2
  {
  }
}
