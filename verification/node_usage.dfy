/**
 Reading a node's token report and pricing it. Values arrive as decoded JSON from a
 counterparty; raw costs are reals in token units (10^-6 USDC).
 */
module NodeUsage {
  import opened Common

  /** A decoded JSON float. */
  datatype Number = Finite(value: real) | Infinite | NotANumber

  /** Text keeps what is read of it: whether it is empty, and the integer it spells, if any. */
  datatype Json =
    | Null
    | Bool(b: bool)
    | Int(i: int)
    | Float(f: Number)
    | Text(blank: bool, number: Option<int>)
    | List(none: bool)
    | Dict(fields: map<string, Json>)

  /** An absent field and an explicit null read alike. */
  function Field(fields: map<string, Json>, name: string): Json {
    if name in fields then fields[name] else Null
  }

  function Truncate(x: real): int { if x >= 0.0 then x.Floor else -(-x).Floor }

  datatype Reading = Absent | Count(n: nat) | Raises

  /** A token count, nothing usable, or a float that `int()` refuses. */
  function ReadCount(v: Json): Reading {
    match v
    case Int(i) => Count(Max(0, i))
    case Float(Finite(x)) => Count(Max(0, Truncate(x)))
    case Float(_) => Raises
    case _ => Absent
  }

  datatype Usage = Usage(prompt: nat, completion: nat)

  function UsageFields(payload: map<string, Json>): map<string, Json> {
    match Field(payload, "usage")
    case Dict(fields) => fields
    case _ => map[]
  }

  /** The bounded usage of a payload; none when reading it raises. */
  function UsageFrom(payload: map<string, Json>, prompt: nat, maxOutput: nat): Option<Usage> {
    var raw := UsageFields(payload);
    var c, p := ReadCount(Field(raw, "completion_tokens")), ReadCount(Field(raw, "prompt_tokens"));
    if c.Raises? || p.Raises? then None
    else Some(Usage(if p.Count? then p.n else prompt, Min(if c.Count? then c.n else 0, maxOutput)))
  }

  /** Python's truth test followed by `int()`: the status a frame carries, none when it raises. */
  function StatusOf(v: Json): Option<int> {
    match v
    case Null => Some(200)
    case Bool(b) => Some(if b then 1 else 200)
    case Int(i) => Some(if i == 0 then 200 else i)
    case Float(Finite(x)) => Some(if x == 0.0 then 200 else Truncate(x))
    case Float(_) => None
    case Text(blank, number) => if blank then Some(200) else number
    case List(none) => if none then Some(200) else None
    case Dict(fields) => if fields == map[] then Some(200) else None
  }

  // ---- prices ------------------------------------------------------------------------------

  type Price = x: real | x >= 0.0

  /** Prices per million tokens and per image. */
  datatype Spec = Spec(input: Price, output: Price, image: Price)

  function ChatCost(spec: Spec, input: int, output: int): real {
    spec.input * Max(input, 0) as real + spec.output * Max(output, 0) as real
  }

  function ImageCost(spec: Spec, images: int): real { spec.image * Max(images, 0) as real }

  function MinReal(a: real, b: real): real { if a <= b then a else b }

  lemma Times(a: real, b: real, c: real)
    requires a >= 0.0 && 0.0 <= b <= c
    ensures 0.0 <= a * b <= a * c
  {}

  /** A chat that stays within the tokens the gate priced never costs more than the gate's price. */
  lemma ChatCostMonotone(spec: Spec, i: int, o: int, i': int, o': int)
    requires i <= i' && o <= o'
    ensures 0.0 <= ChatCost(spec, i, o) <= ChatCost(spec, i', o')
  {
    var a, a', b, b' := Max(i, 0) as real, Max(i', 0) as real, Max(o, 0) as real, Max(o', 0) as real;
    Times(spec.input, a, a');
    Times(spec.output, b, b');
    SumMonotone(spec.input * a, spec.input * a', spec.output * b, spec.output * b');
  }

  lemma SumMonotone(x: real, x': real, y: real, y': real)
    requires 0.0 <= x <= x' && 0.0 <= y <= y'
    ensures 0.0 <= x + y <= x' + y'
  {}

  lemma ImageCostMonotone(spec: Spec, k: int, n: int)
    requires k <= n
    ensures 0.0 <= ImageCost(spec, k) <= ImageCost(spec, n)
  {
    Times(spec.image, Max(k, 0) as real, Max(n, 0) as real);
  }

  predicate FiniteNumber(v: Json) { v.Float? ==> v.f.Finite? }

  /** Reading a usage report raises exactly when one of its two counts is a non-finite float. */
  lemma UsageReadable(payload: map<string, Json>, prompt: nat, maxOutput: nat)
    ensures
      var raw := UsageFields(payload);
      UsageFrom(payload, prompt, maxOutput).Some? <==>
        FiniteNumber(Field(raw, "completion_tokens")) && FiniteNumber(Field(raw, "prompt_tokens"))
    ensures UsageFrom(payload, prompt, maxOutput).Some? ==>
      UsageFrom(payload, prompt, maxOutput).value.completion <= maxOutput
  {}
}
