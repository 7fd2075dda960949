/**
 One streamed completion: what a sequence of node frames, a failure of the transport and a
 client that may leave at any yield do to the hold.
 */
module Streaming {
  import opened Common
  import opened NodeUsage

  datatype Frame =
    | Chunk(delta: Json, tokens: Json)
    | Error
    | Response(status: Json, payload: Json)
    | Unknown

  /** How the frames end when no terminal frame stops the reading. */
  datatype Tail = Exhausted | DispatchFailed | Escaped

  /** How a hold is resolved: charged `actual`, or returned in full. */
  datatype Resolution = Bill(actual: real) | Release

  /**
   How a stream closes: what it does first, and, when that is the settlement of a finished
   stream, what the clean-up would charge if that settlement fails. The clean-up itself and a
   release have no second try.
   */
  datatype Closing = Closing(first: Resolution, again: Option<real>)

  /** What the gate priced. */
  datatype Terms = Terms(spec: Spec, prompt: nat, maxOutput: nat)

  function WorstCase(t: Terms): real { ChatCost(t.spec, t.prompt, t.maxOutput) }

  predicate Delivered(f: Frame) { f.Chunk? && f.delta.Text? && !f.delta.blank }

  /** The running count after a chunk: the node's own, or one more, under the ceiling. */
  function Counted(t: Terms, emitted: nat, r: Reading): nat
    requires !r.Raises?
  {
    Min(if r.Count? then r.n else emitted + 1, t.maxOutput)
  }

  function Billable(t: Terms, emitted: nat, final: Option<Usage>): real {
    var prompt := if final.Some? then final.value.prompt else t.prompt;
    var output := Min(if final.Some? then final.value.completion else emitted, t.maxOutput);
    MinReal(ChatCost(t.spec, prompt, output), WorstCase(t))
  }

  /** The clean-up's charge: nothing when no token was produced. */
  function PartialBillable(t: Terms, emitted: nat, final: Option<Usage>): real {
    if Min(if final.Some? then final.value.completion else emitted, t.maxOutput) > 0 then Billable(t, emitted, final)
      else 0.0
  }

  /** The clean-up of a stream cut short. */
  function Partial(t: Terms, emitted: nat): Resolution {
    var actual := PartialBillable(t, emitted, None);
    if actual > 0.0 then Bill(actual) else Release
  }

  function CutShort(t: Terms, emitted: nat): Closing { Closing(Partial(t, emitted), None) }

  function Ended(t: Terms, emitted: nat, final: Option<Usage>): Closing {
    Closing(Bill(Billable(t, emitted, final)), Some(PartialBillable(t, emitted, final)))
  }

  const FREED := Closing(Release, None)

  /** What the unary path does with a reply's payload. */
  function Unary(t: Terms, payload: map<string, Json>): Resolution {
    var u := UsageFrom(payload, t.prompt, t.maxOutput);
    if u.None? then Release
    else Bill(MinReal(ChatCost(t.spec, u.value.prompt, u.value.completion), WorstCase(t)))
  }

  /** What a terminal response frame leads to. */
  function Terminal(t: Terms, emitted: nat, status: Json, payload: Json): Closing {
    var s := StatusOf(status);
    if s.None? then CutShort(t, emitted)
    else if s.value >= 400 then FREED
    else if !payload.Dict? then Ended(t, emitted, None)
    else
      var u := UsageFrom(payload.fields, t.prompt, t.maxOutput);
      if u.None? then CutShort(t, emitted) else Ended(t, emitted, u)
  }

  /** `patience` is how many more yields the client takes; none when it reads to the end. */
  function Read(t: Terms, emitted: nat, frames: seq<Frame>, tail: Tail, patience: Option<nat>): Closing
    decreases |frames|
  {
    if frames == [] then
      match tail
      case Exhausted => Ended(t, emitted, None)
      case DispatchFailed => FREED
      case Escaped => CutShort(t, emitted)
    else
      var f, rest := frames[0], frames[1..];
      match f
      case Error => FREED
      case Unknown => Read(t, emitted, rest, tail, patience)
      case Response(status, payload) => Terminal(t, emitted, status, payload)
      case Chunk(_, tokens) =>
        if !Delivered(f) then Read(t, emitted, rest, tail, patience)
        else if ReadCount(tokens).Raises? then CutShort(t, emitted)
        else
          var more := Counted(t, emitted, ReadCount(tokens));
          if patience == Some(0) then CutShort(t, more) else Read(t, more, rest, tail, Spend(patience))
  }

  function Spend(patience: Option<nat>): Option<nat>
    requires patience != Some(0)
  {
    if patience.Some? then Some(patience.value - 1) else None
  }

  /** The whole body: the role delta is the first yield. */
  function Closed(t: Terms, frames: seq<Frame>, tail: Tail, patience: Option<nat>): Closing {
    if patience == Some(0) then CutShort(t, 0) else Read(t, 0, frames, tail, Spend(patience))
  }

  /** What the stream does to its hold as long as settling goes through. */
  function Streamed(t: Terms, frames: seq<Frame>, tail: Tail, patience: Option<nat>): Resolution {
    Closed(t, frames, tail, patience).first
  }

  // ---- the charge never exceeds what the gate priced --------------------------------------------

  predicate Within(t: Terms, r: Resolution) { r.Bill? ==> 0.0 <= r.actual <= WorstCase(t) }

  /** The first try is within the price, and a second try charges the same or nothing. */
  predicate ClosesWithin(t: Terms, c: Closing) {
    && Within(t, c.first)
    && (c.again.Some? ==> c.first.Bill? && (c.again.value == c.first.actual || c.again.value == 0.0))
  }

  lemma BillableWithin(t: Terms, emitted: nat, final: Option<Usage>)
    ensures 0.0 <= Billable(t, emitted, final) <= WorstCase(t)
  {
    var prompt := if final.Some? then final.value.prompt else t.prompt;
    var output := Min(if final.Some? then final.value.completion else emitted, t.maxOutput);
    ChatCostMonotone(t.spec, prompt, output, prompt, output);
    ChatCostMonotone(t.spec, t.prompt, t.maxOutput, t.prompt, t.maxOutput);
  }

  lemma EndsWithin(t: Terms, emitted: nat, final: Option<Usage>)
    ensures ClosesWithin(t, Ended(t, emitted, final)) && ClosesWithin(t, CutShort(t, emitted)) && ClosesWithin(t, FREED)
  {
    hide Billable, WorstCase;
    BillableWithin(t, emitted, final);
    BillableWithin(t, emitted, None);
  }

  lemma TerminalWithin(t: Terms, emitted: nat, status: Json, payload: Json)
    ensures ClosesWithin(t, Terminal(t, emitted, status, payload))
  {
    hide UsageFrom, ClosesWithin, Ended, CutShort;
    EndsWithin(t, emitted, None);
    if payload.Dict? { EndsWithin(t, emitted, UsageFrom(payload.fields, t.prompt, t.maxOutput)); }
  }

  lemma {:induction false} ReadWithin(t: Terms, emitted: nat, frames: seq<Frame>, tail: Tail, patience: Option<nat>)
    ensures ClosesWithin(t, Read(t, emitted, frames, tail, patience))
    decreases |frames|
  {
    hide ClosesWithin, Ended, CutShort, Terminal, ReadCount;
    EndsWithin(t, emitted, None);
    if frames != [] {
      var f, rest := frames[0], frames[1..];
      match f {
        case Error =>
        case Unknown => ReadWithin(t, emitted, rest, tail, patience);
        case Response(status, payload) => TerminalWithin(t, emitted, status, payload);
        case Chunk(_, tokens) =>
          if !Delivered(f) {
            ReadWithin(t, emitted, rest, tail, patience);
          } else if !ReadCount(tokens).Raises? {
            var more := Counted(t, emitted, ReadCount(tokens));
            EndsWithin(t, more, None);
            if patience != Some(0) { ReadWithin(t, more, rest, tail, Spend(patience)); }
          }
      }
    }
  }
}
