/** The stream body as it runs: an accounting object, a `settled` flag, and a final clean-up. */
module StreamingBody {
  import opened Common
  import opened Money
  import opened Ledger
  import opened NodeUsage
  import opened Streaming
  import opened Billing
  import opened BillingEngine

  /** Where control leaves the guarded block. */
  datatype Exit = Finished | DispatchError | Interrupted

  class Accounting {
    const terms: Terms
    var emitted: nat
    var final: Option<Usage>

    constructor (terms: Terms)
      ensures this.terms == terms && emitted == 0 && final == None
    {
      this.terms, emitted, final := terms, 0, None;
    }

    /** Account for one delivered chunk; `raised` leaves the count as it was. */
    method SawChunk(tokens: Json) returns (raised: bool)
      modifies this`emitted
      ensures raised <==> ReadCount(tokens).Raises?
      ensures emitted == if raised then old(emitted) else Counted(terms, old(emitted), ReadCount(tokens))
    {
      var reported := ReadCount(tokens);
      raised := reported.Raises?;
      if !raised {
        if reported.Count? {
          emitted := reported.n;
        } else {
          emitted := emitted + 1;
        }
        if emitted > terms.maxOutput {
          emitted := terms.maxOutput;
        }
      }
    }

    function CompletionTokens(): nat
      reads this
    {
      if final.Some? then Min(final.value.completion, terms.maxOutput) else Min(emitted, terms.maxOutput)
    }

    function PromptBilled(): nat
      reads this
    {
      if final.Some? then final.value.prompt else terms.prompt
    }

    method CurrentBill() returns (actual: real)
      ensures actual == Billable(terms, emitted, final)
    {
      var cost := ChatCost(terms.spec, PromptBilled(), CompletionTokens());
      actual := MinReal(cost, WorstCase(terms));
    }

    /** The clean-up's bill, on the final report if there is one. */
    method CurrentPartialBill() returns (actual: real)
      ensures actual == PartialBillable(terms, emitted, final)
    {
      if CompletionTokens() > 0 {
        actual := CurrentBill();
      } else {
        actual := 0.0;
      }
    }
  }

  /** Settle in a session of its own, rolled back when the charge fails. */
  method SettleAlone(book: Book, bps: nat, dev: nat, provider: nat, held: nat, actual: real) returns (cost: Option<nat>)
    requires book.Valid() && bps <= BPS
    modifies book
    ensures book.Valid()
    ensures
      var c := Charge(bps, ReturnHold(old(book.txs), dev, held), dev, provider, actual);
      && cost == (if c.Some? then Some(c.value.1) else None)
      && book.txs == if c.Some? then c.value.0 else old(book.txs)
  {
    var s := new Session(book);
    cost := SettleReservation(s, bps, dev, provider, held, actual);
    if cost.None? {
      s.Rollback();
    }
  }

  /** Release in a session of its own. */
  method ReleaseAlone(book: Book, dev: nat, held: nat)
    requires book.Valid()
    modifies book
    ensures book.Valid() && book.txs == ReturnHold(old(book.txs), dev, held)
  {
    var s := new Session(book);
    ReleaseReservation(s, dev, held);
  }

  /** A stream's two tries, with what others post between them. */
  function Tries(bps: nat, ledger: seq<Transaction>, dev: nat, held: nat, provider: nat, c: Closing,
      between: seq<Transaction>): (seq<Transaction>, Status)
  {
    var (l, s) := FirstTry(bps, ledger, dev, held, provider, c);
    if s.Retrying? then SecondTry(bps, l + between, dev, held, s.provider, s.partial) else (l, s)
  }

  /** Resolve a hold for a stream that did not settle: charge, release, or give up and leave it held. */
  method FinalisePartial(book: Book, bps: nat, dev: nat, provider: nat, held: nat, actual: real)
    returns (status: Status)
    requires book.Valid() && bps <= BPS
    modifies book
    ensures book.Valid() && (book.txs, status) == SecondTry(bps, old(book.txs), dev, held, provider, actual)
  {
    hide Charge, ReturnHold;
    if actual > 0.0 {
      var cost := SettleAlone(book, bps, dev, provider, held, actual);
      status := if cost.Some? then Settled(provider, cost.value) else Stranded;
    } else {
      ReleaseAlone(book, dev, held);
      status := Released;
    }
  }

  /**
   Read the frames to the end, an error, a failure or the client's departure, then resolve the
   hold as they dictate. `others` is what other sessions commit while the stream runs, `between`
   what they commit between a settlement that fails and the clean-up.
   */
  method ChatStreamBody(
      book: Book, bps: nat, dev: nat, provider: nat, held: nat, t: Terms,
      frames: seq<Frame>, tail: Tail, patience: Option<nat>, others: seq<Transaction>, between: seq<Transaction>)
    returns (status: Status)
    requires book.Valid() && bps <= BPS && LedgerOk(others) && LedgerOk(between)
    modifies book
    ensures book.Valid()
    ensures (book.txs, status) ==
      Tries(bps, old(book.txs) + others, dev, held, provider, Closed(t, frames, tail, patience), between)
  {
    hide Charge, ReturnHold, UsageFrom, ReadCount, StatusOf;
    var books := new Accounting(t);
    var exit, nodeFailed := ReadFrames(books, frames, tail, patience);
    Meanwhile(book, others);
    var settled := false;
    status := Stranded;
    if exit == Finished {
      if nodeFailed {
        ReleaseAlone(book, dev, held);
        settled, status := true, Released;
      } else {
        var actual := books.CurrentBill();
        var cost := SettleAlone(book, bps, dev, provider, held, actual);
        if cost.Some? {
          settled, status := true, Settled(provider, cost.value);
        } else {
          Meanwhile(book, between);
        }
      }
    } else if exit == DispatchError {
      ReleaseAlone(book, dev, held);
      settled, status := true, Released;
    }
    if !settled {
      var partial := books.CurrentPartialBill();
      status := FinalisePartial(book, bps, dev, provider, held, partial);
    }
  }

  /** The guarded loop: where it was left, and what the books say then. */
  method ReadFrames(books: Accounting, frames: seq<Frame>, tail: Tail, patience: Option<nat>)
    returns (exit: Exit, nodeFailed: bool)
    requires books.emitted == 0 && books.final == None
    modifies books
    ensures nodeFailed ==> exit == Finished
    ensures
      Closed(books.terms, frames, tail, patience) ==
        match exit
        case Finished => if nodeFailed then FREED else Ended(books.terms, books.emitted, books.final)
        case DispatchError => FREED
        case Interrupted => CutShort(books.terms, books.emitted)
    ensures exit == Interrupted ==> books.final == None
  {
    hide UsageFrom, ReadCount, StatusOf, Ended, CutShort;
    nodeFailed := false;
    if patience == Some(0) {
      return Interrupted, false;
    }
    var left := Spend(patience);
    ghost var t := books.terms;
    for i := 0 to |frames|
      invariant books.final == None && !nodeFailed
      invariant Read(t, books.emitted, frames[i..], tail, left) == Closed(t, frames, tail, patience)
    {
      var f := frames[i];
      assert frames[i..][0] == f && frames[i..][1..] == frames[i + 1..];
      match f {
        case Chunk(_, tokens) =>
          if Delivered(f) {
            var raised := books.SawChunk(tokens);
            if raised || left == Some(0) {
              return Interrupted, false;
            }
            left := Spend(left);
          }
        case Error =>
          return Finished, true;
        case Unknown =>
        case Response(status, payload) =>
          var code := StatusOf(status);
          if code.None? {
            return Interrupted, false;
          }
          if code.value >= 400 {
            return Finished, true;
          }
          if payload.Dict? {
            var usage := UsageFrom(payload.fields, books.terms.prompt, books.terms.maxOutput);
            if usage.None? {
              return Interrupted, false;
            }
            books.final := usage;
          }
          return Finished, false;
      }
    }
    assert frames[|frames|..] == [];
    exit := match tail case Exhausted => Finished case DispatchFailed => DispatchError case Escaped => Interrupted;
  }
}
