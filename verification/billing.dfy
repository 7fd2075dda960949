/**
 Inference billing as committed steps: a deposit, the reservation that opens a request, the
 settlement or release that closes it, a stream's second try, and whatever other components
 post in between. Requests of any number of developers interleave.
 */
module Billing {
  import opened Common
  import opened Money
  import opened Ledger
  import opened NodeUsage
  import opened Streaming

  datatype Request =
    | Chat(terms: Terms)
    | Image(spec: Spec, images: nat)

  /** How a request ends once its hold stands. */
  datatype Ending =
    | NoNode
    | NotDispatched
    | Replied(payload: map<string, Json>)
    | Stream(frames: seq<Frame>, tail: Tail, patience: Option<nat>)
    | Stored(urls: nat)

  /**
   `Retrying`: a finished stream whose settlement failed and whose clean-up is still to come.
   `Twice`: a handler whose settlement failed after posting the hold's return, and whose
   release posted it again. `Stranded`: a stream that gave up, its hold still in escrow.
   */
  datatype Status =
    | Open
    | Retrying(provider: nat, partial: real)
    | Settled(provider: nat, cost: nat)
    | Released
    | Twice
    | Stranded

  /** A request as the books know it. */
  datatype Hold = Hold(dev: nat, request: Request, held: nat, status: Status)

  datatype World = World(ledger: seq<Transaction>, holds: seq<Hold>)

  datatype Step =
    | Deposit(dev: nat, amount: real)
    | Begin(dev: nat, request: Request)
    | Finish(hold: nat, provider: nat, ending: Ending)
    | Retry(hold: nat)
    | Post(tx: Transaction)

  function Ceiling(r: Request): real {
    match r
    case Chat(t) => WorstCase(t)
    case Image(spec, n) => ImageCost(spec, n)
  }

  /** Six-decimal half-up rounding of a raw amount in token units, in ledger ticks. */
  function Quantize(raw: real): int { HalfUp(raw) * TICKS_PER_UNIT }

  function AtLeastZero(x: int): nat { if x <= 0 then 0 else x }

  /** The endings a request of each kind can have. */
  predicate Proper(r: Request, e: Ending) {
    match e
    case NoNode => true
    case NotDispatched => true
    case Replied(_) => r.Chat?
    case Stream(_, _, _) => r.Chat?
    case Stored(_) => r.Image?
  }

  /** What the handler or the stream does with the hold. */
  function ClosingOf(r: Request, e: Ending): Closing
    requires Proper(r, e)
  {
    match e
    case Replied(payload) => Closing(Unary(r.terms, payload), None)
    case Stream(frames, tail, patience) => Closed(r.terms, frames, tail, patience)
    case Stored(urls) => Closing(Bill(ImageCost(r.spec, Min(urls, r.images))), None)
    case _ => FREED
  }

  // ---- postings -------------------------------------------------------------------------------

  function HoldTx(dev: nat, amount: nat): Transaction {
    Transfer(InferenceHold, None, Developer, Some(dev), Escrow, Some(dev), amount)
  }

  function ReturnTx(dev: nat, amount: nat): Transaction {
    Transfer(InferenceRelease, None, Escrow, Some(dev), Developer, Some(dev), amount)
  }

  function DepositTx(dev: nat, amount: nat): Transaction {
    Transfer(TopUp, None, Protocol, None, Developer, Some(dev), amount)
  }

  /** The protocol's cut of a charge of whole token units, rounded half-up to whole units. */
  function Cut(bps: nat, cost: nat): int { Fee(ToUnits(cost), bps) * TICKS_PER_UNIT }

  function UsageTx(bps: nat, dev: nat, provider: nat, cost: nat): Transaction {
    var fee := Cut(bps, cost);
    Transaction(InferenceUsage, None,
      [Debit(Developer, cost, Some(dev)), Credit(Provider, cost - fee, Some(provider))]
      + if fee > 0 then [Credit(Protocol, fee, None)] else [])
  }

  function ReturnHold(ledger: seq<Transaction>, dev: nat, held: nat): seq<Transaction> {
    if held == 0 then ledger else ledger + [ReturnTx(dev, held)]
  }

  /** The ledger after a charge and what was charged; none when the balance is short. */
  function Charge(bps: nat, ledger: seq<Transaction>, dev: nat, provider: nat,
      raw: real): Option<(seq<Transaction>, nat)>
  {
    var cost := AtLeastZero(Quantize(raw));
    if cost == 0 then Some((ledger, 0))
    else if Balance(ledger, Developer, dev) < cost then None
    else Some((ledger + [UsageTx(bps, dev, provider, cost)], cost))
  }

  // ---- steps ------------------------------------------------------------------------------------

  function DoDeposit(w: World, dev: nat, raw: real): World {
    var amount := AtLeastZero(Quantize(raw));
    if amount == 0 then w else w.(ledger := w.ledger + [DepositTx(dev, amount)])
  }

  /** The gate: refused when the balance is short, held otherwise. */
  function DoBegin(w: World, dev: nat, r: Request): World {
    var amount := AtLeastZero(Quantize(Ceiling(r)));
    if amount == 0 then w.(holds := w.holds + [Hold(dev, r, 0, Open)])
    else if Balance(w.ledger, Developer, dev) < amount then w
    else World(w.ledger + [HoldTx(dev, amount)], w.holds + [Hold(dev, r, amount, Open)])
  }

  /**
   A handler works in one session. A charge that fails leaves the hold's return posted in it,
   and the release that follows posts the return again and commits both.
   */
  function Handle(bps: nat, ledger: seq<Transaction>, dev: nat, held: nat, provider: nat,
      r: Resolution): (seq<Transaction>, Status)
  {
    var back := ReturnHold(ledger, dev, held);
    if r.Release? then (back, Released)
    else
      var c := Charge(bps, back, dev, provider, r.actual);
      if c.Some? then (c.value.0, Settled(provider, c.value.1)) else (ReturnHold(back, dev, held), Twice)
  }

  /** A stream settles in a session of its own: a charge that fails is rolled back with the return. */
  function FirstTry(bps: nat, ledger: seq<Transaction>, dev: nat, held: nat, provider: nat,
      c: Closing): (seq<Transaction>, Status)
  {
    var back := ReturnHold(ledger, dev, held);
    if c.first.Release? then (back, Released)
    else
      var r := Charge(bps, back, dev, provider, c.first.actual);
      if r.Some? then (r.value.0, Settled(provider, r.value.1))
      else (ledger, if c.again.Some? then Retrying(provider, c.again.value) else Stranded)
  }

  /** The clean-up of a stream whose settlement failed: charge, or release, or give up. */
  function SecondTry(bps: nat, ledger: seq<Transaction>, dev: nat, held: nat, provider: nat,
      partial: real): (seq<Transaction>, Status)
  {
    FirstTry(bps, ledger, dev, held, provider, Closing(if partial > 0.0 then Bill(partial) else Release, None))
  }

  function Resolve(bps: nat, ledger: seq<Transaction>, h: Hold, provider: nat, e: Ending): (seq<Transaction>, Status)
    requires Proper(h.request, e)
  {
    var c := ClosingOf(h.request, e);
    if e.Stream? then FirstTry(bps, ledger, h.dev, h.held, provider, c)
    else Handle(bps, ledger, h.dev, h.held, provider, c.first)
  }

  function DoFinish(bps: nat, w: World, i: nat, provider: nat, e: Ending): World {
    if i >= |w.holds| || !w.holds[i].status.Open? || !Proper(w.holds[i].request, e) then w
    else
      var h := w.holds[i];
      var (ledger, status) := Resolve(bps, w.ledger, h, provider, e);
      World(ledger, w.holds[i := h.(status := status)])
  }

  function DoRetry(bps: nat, w: World, i: nat): World {
    if i >= |w.holds| || !w.holds[i].status.Retrying? then w
    else
      var h := w.holds[i];
      var (ledger, status) := SecondTry(bps, w.ledger, h.dev, h.held, h.status.provider, h.status.partial);
      World(ledger, w.holds[i := h.(status := status)])
  }

  /** A posting of another component. */
  predicate Foreign(t: Transaction) {
    t.reason != InferenceHold && t.reason != InferenceRelease && t.reason != InferenceUsage
  }

  function Next(bps: nat, w: World, s: Step): World {
    match s
    case Deposit(dev, amount) => DoDeposit(w, dev, amount)
    case Begin(dev, request) => DoBegin(w, dev, request)
    case Finish(i, provider, ending) => DoFinish(bps, w, i, provider, ending)
    case Retry(i) => DoRetry(bps, w, i)
    case Post(t) => if Foreign(t) && Balanced(t.postings) then w.(ledger := w.ledger + [t]) else w
  }

  function Run(bps: nat, w: World, steps: seq<Step>): World
    decreases |steps|
  {
    if steps == [] then w else Run(bps, Next(bps, w, steps[0]), steps[1..])
  }

  const EMPTY := World([], [])
}
