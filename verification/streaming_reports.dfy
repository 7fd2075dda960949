/** Which numbers of a node's report are billed, read off the JSON values themselves. */
module StreamingReports {
  import opened Common
  import opened NodeUsage
  import opened Streaming
  import opened StreamingTheorems

  /** A value that is a count: an integer or a float, floored at zero and truncated. */
  ghost predicate CountIs(v: Json, n: nat) {
    match v
    case Int(i) => n == if i < 0 then 0 else i
    case Float(Finite(x)) => if x < 1.0 then n == 0 else n as real <= x < n as real + 1.0
    case _ => false
  }

  /** What a field of the report stands for: its count, or the default when it is missing or no number. */
  ghost predicate FieldIs(fields: map<string, Json>, name: string, default: nat, n: nat) {
    if name in fields && (fields[name].Int? || fields[name].Float?) then CountIs(fields[name], n) else n == default
  }

  lemma TruncateIs(x: real, n: nat)
    requires n == Max(0, Truncate(x))
    ensures if x < 1.0 then n == 0 else n as real <= x < n as real + 1.0
  {
    if x >= 0.0 {
      assert x.Floor as real <= x < x.Floor as real + 1.0;
    } else {
      assert (-x).Floor as real <= -x < (-x).Floor as real + 1.0;
    }
  }

  lemma ReadIs(fields: map<string, Json>, name: string, default: nat)
    ensures
      var r := ReadCount(Field(fields, name));
      && (r.Raises? <==> name in fields && fields[name].Float? && !fields[name].f.Finite?)
      && (!r.Raises? ==> FieldIs(fields, name, default, if r.Count? then r.n else default))
  {
    if name in fields && fields[name].Float? && fields[name].f.Finite? {
      TruncateIs(fields[name].f.value, Max(0, Truncate(fields[name].f.value)));
    }
  }

  /**
   A readable report's usage: the prompt count it states, else the gate's; the completion count
   it states, else none, under the ceiling. A payload without a report states neither.
   */
  lemma UsageIs(payload: map<string, Json>, prompt: nat, maxOutput: nat)
    ensures
      var raw := if "usage" in payload && payload["usage"].Dict? then payload["usage"].fields else map[];
      var u := UsageFrom(payload, prompt, maxOutput);
      && (u.None? <==> exists name ::
        name in raw && (name == "prompt_tokens" || name == "completion_tokens") && raw[name].Float? &&
          !raw[name].f.Finite?)
      && (u.Some? ==>
        && FieldIs(raw, "prompt_tokens", prompt, u.value.prompt)
        && exists c: nat :: FieldIs(raw, "completion_tokens", 0, c) && u.value.completion == Min(c, maxOutput))
  {
    hide ReadCount, FieldIs;
    var raw := UsageFields(payload);
    ReadIs(raw, "prompt_tokens", prompt);
    ReadIs(raw, "completion_tokens", 0);
  }

  /** The price of a chat, written out. */
  lemma ChatPrice(spec: Spec, p: nat, c: nat)
    ensures ChatCost(spec, p, c) == spec.input * p as real + spec.output * c as real
  {}

  /** A status is read as Python reads it: nothing, false, zero and empty mean success. */
  lemma StatusIs(v: Json)
    ensures v == Null || v == Bool(false) || v == Int(0) || v == Float(Finite(0.0)) ==> StatusOf(v) == Some(200)
    ensures (v.Text? && v.blank) || v == List(true) || v == Dict(map[]) ==> StatusOf(v) == Some(200)
    ensures v.Int? && v.i != 0 ==> StatusOf(v) == Some(v.i)
    ensures v == Bool(true) ==> StatusOf(v) == Some(1)
    ensures v.Text? && !v.blank ==> StatusOf(v) == v.number
    ensures v.Float? && v.f.Finite? && v.f.value >= 1.0 ==>
      StatusOf(v).Some? && StatusOf(v).value as real <= v.f.value < StatusOf(v).value as real + 1.0
    ensures v.Float? && v.f.Finite? && (0.0 < v.f.value < 1.0 || -1.0 < v.f.value < 0.0) ==> StatusOf(v) == Some(0)
    ensures v.Float? && v.f.Finite? && v.f.value <= -1.0 ==>
      StatusOf(v).Some? && StatusOf(v).value as real - 1.0 < v.f.value <= StatusOf(v).value as real
    ensures (v.Float? && !v.f.Finite?) || v == List(false) || (v.Dict? && v.fields != map[]) ==> StatusOf(v).None?
  {}

  /** What a report of `p` and `c` tokens is billed. */
  function Priced(t: Terms, p: nat, c: nat): real {
    var output := if c <= t.maxOutput then c else t.maxOutput;
    var raw := t.spec.input * p as real + t.spec.output * output as real;
    var most := t.spec.input * t.prompt as real + t.spec.output * t.maxOutput as real;
    if raw <= most then raw else most
  }

  lemma PricedIs(t: Terms, p: nat, c: nat, emitted: nat)
    ensures Billable(t, emitted, Some(Usage(p, Min(c, t.maxOutput)))) == Priced(t, p, c)
    ensures MinReal(ChatCost(t.spec, p, Min(c, t.maxOutput)), WorstCase(t)) == Priced(t, p, c)
    ensures Billable(t, emitted, None) == Priced(t, t.prompt, emitted)
  {
    ChatPrice(t.spec, p, Min(c, t.maxOutput));
    ChatPrice(t.spec, t.prompt, Min(emitted, t.maxOutput));
    ChatPrice(t.spec, t.prompt, t.maxOutput);
  }

  /**
   A reply with a readable report is billed for the tokens the report states, capped by the
   price of the whole ceiling; streamed, on any successful status and whatever came before, the
   same. A stream that stops without a report is billed for its own count.
   */
  lemma ReportBilled(t: Terms, payload: map<string, Json>, p: nat, c: nat, past: seq<Frame>, status: int,
      rest: seq<Frame>, tail: Tail, patience: Option<nat>)
    requires "usage" in payload && payload["usage"].Dict?
    requires FieldIs(payload["usage"].fields, "prompt_tokens", t.prompt, p)
    requires FieldIs(payload["usage"].fields, "completion_tokens", 0, c)
    requires AllOrdinary(past) && Takes(patience, 1 + Yields(past)) && status < 400
    ensures Unary(t, payload) == Bill(Priced(t, p, c))
    ensures Streamed(t, past + [Response(Int(status), Dict(payload))] + rest, tail, patience) == Bill(Priced(t, p, c))
    ensures Streamed(t, past, Exhausted, patience) == Bill(Priced(t, t.prompt, Tokens(t, 0, past)))
  {
    hide ChatCost, Priced, Read, FieldIs, Billable, WorstCase, Tokens;
    Reported(t, payload, p, c);
    PricedIs(t, p, c, Tokens(t, 0, past));
    StreamedPast(t, past, [Response(Int(status), Dict(payload))] + rest, tail, patience);
    assert past + [Response(Int(status), Dict(payload))] + rest ==
      past + ([Response(Int(status), Dict(payload))] + rest);
    ReadsResponse(t, Tokens(t, 0, past), Int(status), Dict(payload), rest, tail, Less(patience, 1 + Yields(past)));
    SilentEnd(t, past, patience);
  }

  lemma Reported(t: Terms, payload: map<string, Json>, p: nat, c: nat)
    requires "usage" in payload && payload["usage"].Dict?
    requires FieldIs(payload["usage"].fields, "prompt_tokens", t.prompt, p)
    requires FieldIs(payload["usage"].fields, "completion_tokens", 0, c)
    ensures UsageFrom(payload, t.prompt, t.maxOutput) == Some(Usage(p, Min(c, t.maxOutput)))
  {
    hide ReadCount;
    var raw := payload["usage"].fields;
    UsageIs(payload, t.prompt, t.maxOutput);
    ReadIs(raw, "prompt_tokens", t.prompt);
    ReadIs(raw, "completion_tokens", 0);
  }

  lemma ReadsResponse(t: Terms, emitted: nat, status: Json, payload: Json, rest: seq<Frame>, tail: Tail,
      patience: Option<nat>)
    ensures Read(t, emitted, [Response(status, payload)] + rest, tail, patience) ==
      Terminal(t, emitted, status, payload)
  {
    assert ([Response(status, payload)] + rest)[0] == Response(status, payload);
  }

  /** The clean-up of a stream cut short: the tokens counted, if that comes to anything, else nothing. */
  lemma CutBills(t: Terms, n: nat)
    ensures
      var price := Priced(t, t.prompt, n);
      CutShort(t, n) == Closing(if n > 0 && t.maxOutput > 0 && price > 0.0 then Bill(price) else Release, None)
  {
    hide ChatCost, WorstCase, Priced;
    PricedIs(t, 0, 0, n);
  }

  /** A second try of a finished stream charges the same, or nothing when no token was produced. */
  lemma AgainBills(t: Terms, n: nat, p: nat, c: nat)
    ensures Ended(t, n, None) ==
      Closing(Bill(Priced(t, t.prompt, n)), Some(if n > 0 && t.maxOutput > 0 then Priced(t, t.prompt, n) else 0.0))
    ensures Ended(t, n, Some(Usage(p, Min(c, t.maxOutput)))) ==
      Closing(Bill(Priced(t, p, c)), Some(if c > 0 && t.maxOutput > 0 then Priced(t, p, c) else 0.0))
  {
    hide ChatCost, WorstCase, Priced;
    PricedIs(t, p, c, n);
  }

  /**
   A response whose status or, on success, whose report cannot be read cuts the stream short:
   the tokens counted before it are billed, or nothing when there were none.
   */
  lemma UnreadableBills(t: Terms, past: seq<Frame>, status: Json, payload: Json, rest: seq<Frame>, tail: Tail,
      patience: Option<nat>)
    requires AllOrdinary(past) && Takes(patience, 1 + Yields(past))
    requires
      || StatusOf(status).None?
      || (StatusOf(status).value < 400 && payload.Dict? && UsageFrom(payload.fields, t.prompt, t.maxOutput).None?)
    ensures
      var n := Tokens(t, 0, past);
      var price := Priced(t, t.prompt, n);
      Closed(t, past + [Response(status, payload)] + rest, tail, patience) ==
        Closing(if n > 0 && t.maxOutput > 0 && price > 0.0 then Bill(price) else Release, None)
  {
    hide Priced, Read, Tokens, CutShort, UsageFrom, StatusOf;
    var n := Tokens(t, 0, past);
    StreamedPast(t, past, [Response(status, payload)] + rest, tail, patience);
    assert past + [Response(status, payload)] + rest == past + ([Response(status, payload)] + rest);
    ReadsResponse(t, n, status, payload, rest, tail, Less(patience, 1 + Yields(past)));
    CutBills(t, n);
  }

  // ---- counting chunks ----------------------------------------------------------------------------

  /** A chunk that carries text and no count of its own. */
  predicate Bare(f: Frame) { f.Chunk? && f.delta.Text? && !f.delta.blank && !f.tokens.Int? && !f.tokens.Float? }

  /** Chunks without counts count one each; nothing else counts; the ceiling holds. */
  lemma {:induction false} BareTokens(t: Terms, emitted: nat, frames: seq<Frame>)
    requires AllOrdinary(frames) && emitted <= t.maxOutput
    requires forall f :: f in frames && f.Chunk? && f.delta.Text? && !f.delta.blank ==> Bare(f)
    ensures Tokens(t, emitted, frames) == Min(emitted + Yields(frames), t.maxOutput)
    decreases |frames|
  {
    if frames != [] {
      var f := frames[0];
      assert f in frames && forall g :: g in frames[1..] ==> g in frames;
      BareTokens(t, if Delivered(f) then Counted(t, emitted, ReadCount(f.tokens)) else emitted, frames[1..]);
    }
  }

  /**
   A chunk with text and a count sets the running count, whatever it was: the count goes down
   if and only if the chunk states fewer tokens than were counted before.
   */
  lemma CountTakesOver(t: Terms, past: seq<Frame>, text: Option<int>, v: Json, n: nat)
    requires AllOrdinary(past) && CountIs(v, n)
    ensures AllOrdinary(past + [Chunk(Text(false, text), v)])
    ensures
      var before, after := Tokens(t, 0, past), Tokens(t, 0, past + [Chunk(Text(false, text), v)]);
      after == Min(n, t.maxOutput) && (after < before <==> n < before)
  {
    var f := Chunk(Text(false, text), v);
    assert ReadCount(v) == Count(n) by {
      if v.Float? { TruncateIs(v.f.value, Max(0, Truncate(v.f.value))); }
    }
    assert forall g :: g in past + [f] ==> g in past || g == f;
    TokensAppend(t, 0, past, f);
    TokensBound(t, 0, past);
  }

  /** Three tokens stated, then one: the stream is billed for one. */
  lemma CountShrinks(t: Terms, past: seq<Frame>)
    requires t == Terms(Spec(0.0, 1.0, 0.0), 0, 10)
    requires past == [Chunk(Text(false, None), Int(3)), Chunk(Text(false, None), Int(1))]
    ensures Streamed(t, past, Exhausted, None) == Bill(1.0)
  {
    var three := [Chunk(Text(false, None), Int(3))];
    assert past == three + [Chunk(Text(false, None), Int(1))];
    CountTakesOver(t, three, None, Int(1), 1);
    SilentEnd(t, past, None);
    assert Billable(t, 1, None) == 1.0;
  }

  lemma {:induction false} TokensAppend(t: Terms, emitted: nat, past: seq<Frame>, f: Frame)
    requires AllOrdinary(past) && AllOrdinary(past + [f])
    ensures Ordinary(f)
    ensures
      var before := Tokens(t, emitted, past);
      Tokens(t, emitted, past + [f]) == if Delivered(f) then Counted(t, before, ReadCount(f.tokens)) else before
    decreases |past|
  {
    assert f in past + [f];
    if past == [] {
      assert [] + [f] == [f] && [f][1..] == [];
    } else {
      var g := past[0];
      assert (past + [f])[0] == g && (past + [f])[1..] == past[1..] + [f];
      assert g in past && AllOrdinary(past[1..]) && AllOrdinary(past[1..] + [f]);
      TokensAppend(t, if Delivered(g) then Counted(t, emitted, ReadCount(g.tokens)) else emitted, past[1..], f);
    }
  }
}
