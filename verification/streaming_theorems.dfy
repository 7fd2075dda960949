/** What every way a stream can end does to its hold. */
module StreamingTheorems {
  import opened Common
  import opened NodeUsage
  import opened Streaming

  /** A frame that neither ends the stream nor breaks its reader. */
  predicate Ordinary(f: Frame) {
    f.Unknown? || (f.Chunk? && (Delivered(f) ==> !ReadCount(f.tokens).Raises?))
  }

  predicate AllOrdinary(frames: seq<Frame>) { forall f :: f in frames ==> Ordinary(f) }

  function Yields(frames: seq<Frame>): nat {
    if frames == [] then 0 else (if Delivered(frames[0]) then 1 else 0) + Yields(frames[1..])
  }

  /** The token count the ordinary frames leave behind. */
  function Tokens(t: Terms, emitted: nat, frames: seq<Frame>): nat
    requires AllOrdinary(frames)
    decreases |frames|
  {
    if frames == [] then emitted
    else
      assert Ordinary(frames[0]);
      Tokens(t, if Delivered(frames[0]) then Counted(t, emitted, ReadCount(frames[0].tokens)) else emitted, frames[1..])
  }

  /** The client takes at least `n` more yields. */
  predicate Takes(patience: Option<nat>, n: nat) { patience.None? || n <= patience.value }

  function Less(patience: Option<nat>, n: nat): Option<nat>
    requires Takes(patience, n)
  {
    if patience.None? then None else Some(patience.value - n)
  }

  /** Reading past ordinary frames only moves the count and uses up yields. */
  lemma {:induction false} ReadPast(t: Terms, emitted: nat, past: seq<Frame>, rest: seq<Frame>, tail: Tail,
      patience: Option<nat>)
    requires AllOrdinary(past) && Takes(patience, Yields(past))
    ensures Read(t, emitted, past + rest, tail, patience) ==
            Read(t, Tokens(t, emitted, past), rest, tail, Less(patience, Yields(past)))
    decreases |past|
  {
    hide CutShort, Terminal, Ended;
    if past == [] {
      assert past + rest == rest;
    } else {
      var f := past[0];
      assert Ordinary(f) && (past + rest)[0] == f && (past + rest)[1..] == past[1..] + rest;
      assert AllOrdinary(past[1..]);
      if Delivered(f) {
        ReadPast(t, Counted(t, emitted, ReadCount(f.tokens)), past[1..], rest, tail, Spend(patience));
      } else {
        ReadPast(t, emitted, past[1..], rest, tail, patience);
      }
    }
  }

  lemma {:induction false} TokensBound(t: Terms, emitted: nat, frames: seq<Frame>)
    requires AllOrdinary(frames) && emitted <= t.maxOutput
    ensures Tokens(t, emitted, frames) <= t.maxOutput
    decreases |frames|
  {
    if frames != [] {
      assert Ordinary(frames[0]);
      TokensBound(t, if Delivered(frames[0]) then Counted(t, emitted, ReadCount(frames[0].tokens)) else emitted,
        frames[1..]);
    }
  }

  /** The body after its first yield, past ordinary frames. */
  lemma StreamedPast(t: Terms, past: seq<Frame>, rest: seq<Frame>, tail: Tail, patience: Option<nat>)
    requires AllOrdinary(past) && Takes(patience, 1 + Yields(past))
    ensures Closed(t, past + rest, tail, patience) ==
            Read(t, Tokens(t, 0, past), rest, tail, Less(patience, 1 + Yields(past)))
  {
    hide Read, CutShort;
    ReadPast(t, 0, past, rest, tail, Spend(patience));
  }

  /**
   Whatever chunks came before, a stream ended by a successful response with a dictionary is
   billed as the unary path bills that dictionary, except when its usage report breaks the
   reader: then the unary path charges nothing and the stream charges the tokens already counted.
   */
  lemma RefinesUnary(t: Terms, past: seq<Frame>, status: Json, payload: map<string, Json>, rest: seq<Frame>, tail: Tail,
      patience: Option<nat>)
    requires AllOrdinary(past) && Takes(patience, 1 + Yields(past))
    requires StatusOf(status).Some? && StatusOf(status).value < 400
    ensures
      var r := Streamed(t, past + [Response(status, Dict(payload))] + rest, tail, patience);
      var readable := UsageFrom(payload, t.prompt, t.maxOutput).Some?;
      && (readable ==> r == Unary(t, payload))
      && (!readable ==> r == Partial(t, Tokens(t, 0, past)) && Unary(t, payload) == Release)
      && (r == Unary(t, payload) <==> readable || PartialBillable(t, Tokens(t, 0, past), None) <= 0.0)
  {
    hide Closed, Tokens, PartialBillable;
    var last := Response(status, Dict(payload));
    assert past + [last] + rest == past + ([last] + rest);
    StreamedPast(t, past, [last] + rest, tail, patience);
    UsageReadable(payload, t.prompt, t.maxOutput);
  }

  /** Three tokens streamed, then a report of not-a-number: the stream bills three units, the unary path nothing. */
  lemma UnreadableDiffers(t: Terms, payload: map<string, Json>)
    requires t == Terms(Spec(0.0, 1.0, 0.0), 0, 10)
    requires payload == map["usage" := Dict(map["completion_tokens" := Float(NotANumber)])]
    ensures
      var frames := [Chunk(Text(false, None), Int(3)), Response(Int(200), Dict(payload))];
      Streamed(t, frames, Exhausted, None) == Bill(3.0) && Unary(t, payload) == Release
  {
    hide Closed;
    var past := [Chunk(Text(false, None), Int(3))];
    assert UsageFields(payload) == map["completion_tokens" := Float(NotANumber)];
    assert UsageFrom(payload, 0, 10).None?;
    assert past[1..] == [] && Tokens(t, 3, []) == 3 && Tokens(t, 0, past) == 3;
    assert PartialBillable(t, 3, None) == 3.0;
    RefinesUnary(t, past, Int(200), payload, [], Exhausted, None);
    assert past + [Response(Int(200), Dict(payload))] + [] ==
      [Chunk(Text(false, None), Int(3)), Response(Int(200), Dict(payload))];
  }

  /** A node error, an error status or a lost transport returns the hold in full, whatever was streamed. */
  lemma FailureReleases(t: Terms, past: seq<Frame>, f: Frame, rest: seq<Frame>, tail: Tail, patience: Option<nat>)
    requires AllOrdinary(past) && Takes(patience, 1 + Yields(past))
    requires f.Error? || (f.Response? && StatusOf(f.status).Some? && StatusOf(f.status).value >= 400)
    ensures Streamed(t, past + [f] + rest, tail, patience) == Release
    ensures Streamed(t, past, DispatchFailed, patience) == Release
  {
    hide Closed, Partial, Tokens, StatusOf;
    assert past + [f] + rest == past + ([f] + rest) && past + [] == past;
    StreamedPast(t, past, [f] + rest, tail, patience);
    StreamedPast(t, past, [], DispatchFailed, patience);
  }

  /** A client that leaves at a chunk is billed for exactly the tokens counted by then. */
  lemma LeavingBills(t: Terms, past: seq<Frame>, f: Frame, rest: seq<Frame>, tail: Tail)
    requires AllOrdinary(past) && Ordinary(f) && Delivered(f)
    ensures
      var tokens := Counted(t, Tokens(t, 0, past), ReadCount(f.tokens));
      var r := Streamed(t, past + [f] + rest, tail, Some(1 + Yields(past)));
      && r == Partial(t, tokens)
      && (tokens == 0 ==> r == Release)
      && (tokens > 0 ==> r == Release || r == Bill(MinReal(ChatCost(t.spec, t.prompt, tokens), WorstCase(t))))
    ensures Streamed(t, past + [f] + rest, tail, Some(0)) == Release
  {
    hide Tokens, ReadCount, WorstCase, ChatCost;
    assert past + [f] + rest == past + ([f] + rest);
    StreamedPast(t, past, [f] + rest, tail, Some(1 + Yields(past)));
    assert ([f] + rest)[0] == f;
  }

  /**
   A stream that stops without a terminal frame is settled, not cut short: having produced no
   token it still pays for its prompt, where leaving or failing would pay nothing.
   */
  lemma SilentEnd(t: Terms, past: seq<Frame>, patience: Option<nat>)
    requires AllOrdinary(past) && Takes(patience, 1 + Yields(past))
    ensures Streamed(t, past, Exhausted, patience) == Bill(Billable(t, Tokens(t, 0, past), None))
    ensures Streamed(t, past, Escaped, patience) == Partial(t, Tokens(t, 0, past))
    ensures Tokens(t, 0, past) == 0 ==>
      && Streamed(t, past, Exhausted, patience) == Bill(ChatCost(t.spec, t.prompt, 0))
      && Streamed(t, past, Escaped, patience) == Release
  {
    hide Closed, Tokens, ChatCost;
    assert past + [] == past;
    StreamedPast(t, past, [], Exhausted, patience);
    StreamedPast(t, past, [], Escaped, patience);
    ChatCostMonotone(t.spec, t.prompt, 0, t.prompt, t.maxOutput);
  }

  /** No frame at all, and a prompt of five tokens at one unit each: five units. */
  lemma SilentCharged(t: Terms)
    requires t == Terms(Spec(1.0, 1.0, 0.0), 5, 10)
    ensures Streamed(t, [], Exhausted, None) == Bill(5.0)
  {
    SilentEnd(t, [], None);
  }

  // ---- streams that produce nothing ------------------------------------------------------------

  /**
   How a stream ends: by itself, with its transport, with its node, on an answer, by a broken reader or a departure.
   */
  datatype End = Stopped | TransportLost | NodeFailed | Answered(status: Json, payload: Json) | Broken | Left

  /** The end of a stream and the tokens counted by then. */
  function EndOf(t: Terms, emitted: nat, frames: seq<Frame>, tail: Tail, patience: Option<nat>): (End, nat)
    decreases |frames|
  {
    if frames == [] then
      match tail
      case Exhausted => (Stopped, emitted)
      case DispatchFailed => (TransportLost, emitted)
      case Escaped => (Broken, emitted)
    else
      var f, rest := frames[0], frames[1..];
      match f
      case Error => (NodeFailed, emitted)
      case Unknown => EndOf(t, emitted, rest, tail, patience)
      case Response(status, payload) => (Answered(status, payload), emitted)
      case Chunk(_, tokens) =>
        if !Delivered(f) then EndOf(t, emitted, rest, tail, patience)
        else if ReadCount(tokens).Raises? then (Broken, emitted)
        else
          var more := Counted(t, emitted, ReadCount(tokens));
          if patience == Some(0) then (Left, more) else EndOf(t, more, rest, tail, Spend(patience))
  }

  function StreamEnd(t: Terms, frames: seq<Frame>, tail: Tail, patience: Option<nat>): (End, nat) {
    if patience == Some(0) then (Left, 0) else EndOf(t, 0, frames, tail, Spend(patience))
  }

  /** What each end does with the hold. */
  function ClosingAt(t: Terms, end: End, tokens: nat): Closing {
    match end
    case Stopped => Ended(t, tokens, None)
    case Answered(status, payload) => Terminal(t, tokens, status, payload)
    case TransportLost => FREED
    case NodeFailed => FREED
    case Broken => CutShort(t, tokens)
    case Left => CutShort(t, tokens)
  }

  /** A stream's closing depends on nothing but how it ended and what was counted. */
  lemma {:induction false} ReadEnds(t: Terms, emitted: nat, frames: seq<Frame>, tail: Tail, patience: Option<nat>)
    ensures
      var (end, tokens) := EndOf(t, emitted, frames, tail, patience);
      Read(t, emitted, frames, tail, patience) == ClosingAt(t, end, tokens)
    decreases |frames|
  {
    hide Ended, CutShort, Terminal, ReadCount;
    if frames != [] {
      var f, rest := frames[0], frames[1..];
      match f {
        case Error =>
        case Unknown => ReadEnds(t, emitted, rest, tail, patience);
        case Response(_, _) =>
        case Chunk(_, tokens) =>
          if !Delivered(f) {
            ReadEnds(t, emitted, rest, tail, patience);
          } else if !ReadCount(tokens).Raises? && patience != Some(0) {
            ReadEnds(t, Counted(t, emitted, ReadCount(tokens)), rest, tail, Spend(patience));
          }
      }
    }
  }

  predicate Pays(r: Resolution) { r.Bill? && r.actual > 0.0 }

  /** The prompt an end bills: the gate's or the node's count for a finished stream, none otherwise. */
  function PromptBilled(t: Terms, end: End): Option<nat> {
    match end
    case Stopped => Some(t.prompt)
    case Answered(status, payload) =>
      if StatusOf(status).None? || StatusOf(status).value >= 400 then None
      else if !payload.Dict? then Some(t.prompt)
      else
        var u := UsageFrom(payload.fields, t.prompt, t.maxOutput);
        if u.None? then None else Some(u.value.prompt)
    case _ => None
  }

  /** No token was counted, and none reported at the end. */
  predicate NoToken(t: Terms, end: End, tokens: nat) {
    && tokens == 0
    && (end.Answered? && end.payload.Dict? ==>
      var u := UsageFrom(end.payload.fields, t.prompt, t.maxOutput);
      u.Some? ==> u.value.completion == 0)
  }

  lemma PromptOnly(t: Terms, final: Option<Usage>)
    requires final.Some? ==> final.value.completion == 0
    ensures
      var prompt := if final.Some? then final.value.prompt else t.prompt;
      Billable(t, 0, final) > 0.0 <==> t.spec.input > 0.0 && prompt > 0 && WorstCase(t) > 0.0
  {
    hide WorstCase;
    var prompt := if final.Some? then final.value.prompt else t.prompt;
    Product(t.spec.input, prompt);
    assert t.spec.output * 0.0 == 0.0;
  }

  lemma Product(price: Price, n: nat)
    ensures price * n as real > 0.0 <==> price > 0.0 && n > 0
  {}

  /**
   A stream that produced no token pays if and only if it finished, by stopping or on an answer
   with a status below 400 whose report, if a dictionary, is readable, and the prompt it is
   billed for has a price that the gate reserved something for.
   */
  lemma TokenlessPaysIff(t: Terms, frames: seq<Frame>, tail: Tail, patience: Option<nat>)
    ensures
      var (end, tokens) := StreamEnd(t, frames, tail, patience);
      NoToken(t, end, tokens) ==>
        (Pays(Streamed(t, frames, tail, patience)) <==>
          PromptBilled(t, end).Some? && PromptBilled(t, end).value > 0 && t.spec.input > 0.0 && WorstCase(t) > 0.0)
  {
    hide Read, EndOf, Billable, WorstCase, UsageFrom, StatusOf;
    if patience != Some(0) { ReadEnds(t, 0, frames, tail, Spend(patience)); }
    var (end, tokens) := StreamEnd(t, frames, tail, patience);
    PromptOnly(t, None);
    if end.Answered? && end.payload.Dict? {
      var u := UsageFrom(end.payload.fields, t.prompt, t.maxOutput);
      if u.Some? && u.value.completion == 0 { PromptOnly(t, u); }
    }
  }

  /** The unary path too pays for the prompt of a readable reply that reports no token, and for nothing else. */
  lemma TokenlessUnaryIff(t: Terms, payload: map<string, Json>)
    ensures
      var u := UsageFrom(payload, t.prompt, t.maxOutput);
      && (u.None? ==> Unary(t, payload) == Release)
      && (u.Some? && u.value.completion == 0 ==>
        (Pays(Unary(t, payload)) <==> t.spec.input > 0.0 && u.value.prompt > 0 && WorstCase(t) > 0.0))
  {
    hide UsageFrom, WorstCase;
    var u := UsageFrom(payload, t.prompt, t.maxOutput);
    if u.Some? && u.value.completion == 0 { PromptOnly(t, u); }
  }

  /** An answer with no report at all, streamed or not: the prompt is charged for nothing. */
  lemma EmptyAnswerCharged(t: Terms)
    requires t == Terms(Spec(1.0, 1.0, 0.0), 5, 10)
    ensures Streamed(t, [Response(Int(200), Dict(map[]))], Exhausted, None) == Bill(5.0)
    ensures Streamed(t, [Response(Int(200), Null)], Exhausted, None) == Bill(5.0)
    ensures Unary(t, map[]) == Bill(5.0)
  {
    assert UsageFrom(map[], 5, 10) == Some(NodeUsage.Usage(5, 0));
    assert Billable(t, 0, None) == 5.0 && Billable(t, 0, Some(NodeUsage.Usage(5, 0))) == 5.0;
  }

  /** In every case the charge lies between nothing and the price the gate reserved, on a second try too. */
  lemma StreamedWithin(t: Terms, frames: seq<Frame>, tail: Tail, patience: Option<nat>)
    ensures ClosesWithin(t, Closed(t, frames, tail, patience))
  {
    hide ClosesWithin, Read, CutShort;
    EndsWithin(t, 0, None);
    if patience != Some(0) { ReadWithin(t, 0, frames, tail, Spend(patience)); }
  }

  /** A lost or failed node, a departure and a broken reader are final; only a finished stream tries twice. */
  lemma TriesAgain(t: Terms, past: seq<Frame>, f: Frame, rest: seq<Frame>, tail: Tail, patience: Option<nat>)
    requires AllOrdinary(past) && Takes(patience, 1 + Yields(past)) && f.Response?
    ensures
      var c := Closed(t, past + [f] + rest, tail, patience);
      c.again.Some? <==>
        && StatusOf(f.status).Some? && StatusOf(f.status).value < 400
        && (f.payload.Dict? ==> UsageFrom(f.payload.fields, t.prompt, t.maxOutput).Some?)
  {
    hide Closed, Tokens, UsageFrom, StatusOf, Partial, Billable, PartialBillable;
    assert past + [f] + rest == past + ([f] + rest);
    StreamedPast(t, past, [f] + rest, tail, patience);
  }

  lemma UnaryWithin(t: Terms, payload: map<string, Json>)
    ensures Within(t, Unary(t, payload))
  {
    var u := UsageFrom(payload, t.prompt, t.maxOutput);
    if u.Some? {
      ChatCostMonotone(t.spec, u.value.prompt, u.value.completion, u.value.prompt, u.value.completion);
      ChatCostMonotone(t.spec, t.prompt, t.maxOutput, t.prompt, t.maxOutput);
    }
  }
}
