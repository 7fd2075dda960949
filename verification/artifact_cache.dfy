/**
 The agent's artifact cache: an index ordered by recency and one file per digest, kept under
 a size cap by evicting the least recently used, against a plain recency list.
 */
module ArtifactCache {
  import opened Common

  type Digest = nat
  type Bytes = seq<bv8>

  // ---- the recency list ------------------------------------------------------------------

  /** An index entry and its file, most recently used last; the file may have vanished. */
  datatype Stored = Stored(digest: Digest, size: nat, data: Option<Bytes>)

  datatype Op = Fetch(digest: Digest) | Store(digest: Digest, data: Bytes) | Vanish(digest: Digest)

  /** Where a digest stands; the length when it is not listed. */
  function Position(s: seq<Stored>, d: Digest): (i: nat)
    ensures i <= |s|
    ensures i < |s| ==> s[i].digest == d
    ensures forall k :: 0 <= k < i ==> s[k].digest != d
  {
    if s == [] || s[0].digest == d then 0
    else
      var i := Position(s[1..], d);
      assert forall k :: 0 < k < |s| ==> s[k] == s[1..][k - 1];
      i + 1
  }

  function Forget(s: seq<Stored>, i: nat): seq<Stored>
    requires i < |s|
  {
    s[..i] + s[i + 1..]
  }

  function Refresh(s: seq<Stored>, i: nat): seq<Stored>
    requires i < |s|
  {
    Forget(s, i) + [s[i]]
  }

  function Weight(s: seq<Stored>): nat { if s == [] then 0 else s[0].size + Weight(s[1..]) }

  /** Drop from the front until the rest fits. */
  function Fitted(s: seq<Stored>, cap: int): seq<Stored> {
    if s == [] || Weight(s) <= cap then s else Fitted(s[1..], cap)
  }

  function Step(s: seq<Stored>, op: Op, cap: int): seq<Stored> {
    var i := Position(s, op.digest);
    match op
    case Fetch(_) => if i == |s| then s else if s[i].data.None? then Forget(s, i) else Refresh(s, i)
    case Store(d, data) => if i < |s| then Refresh(s, i) else Fitted(s + [Stored(d, |data|, Some(data))], cap)
    case Vanish(_) => if i == |s| then s else s[i := s[i].(data := None)]
  }

  /** What a fetch returns. */
  function Found(s: seq<Stored>, d: Digest): Option<Bytes> {
    var i := Position(s, d);
    if i < |s| then s[i].data else None
  }

  function Run(s: seq<Stored>, ops: seq<Op>, cap: int): seq<Stored>
    decreases |ops|
  {
    if ops == [] then s else Run(Step(s, ops[0], cap), ops[1..], cap)
  }

  // ---- what every run keeps ---------------------------------------------------------------------

  lemma {:induction false} FittedFrom(s: seq<Stored>, cap: int) returns (k: nat)
    ensures k <= |s| && Fitted(s, cap) == s[k..]
    ensures k < |s| ==> Weight(s[k..]) <= cap
    ensures k > 0 ==> Weight(s[k - 1..]) > cap
  {
    if s == [] || Weight(s) <= cap {
      k := 0;
      assert s[0..] == s;
    } else {
      k := FittedFrom(s[1..], cap);
      assert s[1..][k..] == s[k + 1..];
      if k > 0 { assert s[1..][k - 1..] == s[k..]; } else { assert s[0..] == s; }
      k := k + 1;
    }
  }

  /** The survivors are a most-recently-used suffix that fits unless it is empty, and no longer suffix fits. */
  lemma LongestSuffix(s: seq<Stored>, cap: int) returns (k: nat)
    ensures k <= |s| && Fitted(s, cap) == s[k..]
    ensures k < |s| ==> Weight(s[k..]) <= cap
    ensures forall m: nat :: m < k ==> Weight(s[m..]) > cap
  {
    hide Weight, Fitted;
    k := FittedFrom(s, cap);
    forall m: nat | m < k ensures Weight(s[m..]) > cap {
      SuffixWeight(s, m, k - 1);
    }
  }

  ghost predicate Distinct(s: seq<Stored>) {
    forall i, k :: 0 <= i < k < |s| ==> s[i].digest != s[k].digest
  }

  ghost predicate Sized(s: seq<Stored>) {
    forall i :: 0 <= i < |s| && s[i].data.Some? ==> s[i].size == |s[i].data.value|
  }

  ghost predicate Ok(s: seq<Stored>, cap: int) {
    Distinct(s) && Sized(s) && (s == [] || Weight(s) <= cap)
  }

  lemma {:induction false} WeightConcat(a: seq<Stored>, b: seq<Stored>)
    ensures Weight(a + b) == Weight(a) + Weight(b)
  {
    if a == [] {
      assert a + b == b;
    } else {
      assert (a + b)[1..] == a[1..] + b;
      WeightConcat(a[1..], b);
    }
  }

  lemma WeightMoves(s: seq<Stored>, i: nat)
    requires i < |s|
    ensures Weight(Forget(s, i)) + s[i].size == Weight(s)
    ensures Weight(Refresh(s, i)) == Weight(s)
  {
    hide Weight;
    assert s == s[..i] + [s[i]] + s[i + 1..];
    WeightConcat(s[..i] + [s[i]], s[i + 1..]);
    WeightConcat(s[..i], [s[i]]);
    WeightConcat(s[..i], s[i + 1..]);
    WeightConcat(Forget(s, i), [s[i]]);
    WeightOne(s[i]);
  }

  lemma WeightOne(e: Stored)
    ensures Weight([e]) == e.size
  {
    assert [e][1..] == [];
  }

  lemma {:induction false} WeightSame(s: seq<Stored>, t: seq<Stored>)
    requires |s| == |t| && forall i :: 0 <= i < |s| ==> s[i].size == t[i].size
    ensures Weight(s) == Weight(t)
  {
    if s != [] { WeightSame(s[1..], t[1..]); }
  }

  lemma MoveOk(s: seq<Stored>, i: nat)
    requires Distinct(s) && Sized(s) && i < |s|
    ensures Distinct(Forget(s, i)) && Sized(Forget(s, i)) && Distinct(Refresh(s, i)) && Sized(Refresh(s, i))
  {}

  lemma StepOk(s: seq<Stored>, op: Op, cap: int)
    requires Ok(s, cap)
    ensures Ok(Step(s, op, cap), cap)
  {
    hide Weight, Fitted, Forget, Refresh;
    var i := Position(s, op.digest);
    if i < |s| {
      WeightMoves(s, i);
      MoveOk(s, i);
    }
    match op {
      case Fetch(_) =>
      case Store(d, data) =>
        var longer := s + [Stored(d, |data|, Some(data))];
        var k := FittedFrom(longer, cap);
      case Vanish(_) => if i < |s| { WeightSame(s, s[i := s[i].(data := None)]); }
    }
  }

  /** Over every run the index lists each digest once, records its file's size, and stays under the cap. */
  lemma {:induction false} RunOk(s: seq<Stored>, ops: seq<Op>, cap: int)
    requires Ok(s, cap)
    ensures Ok(Run(s, ops, cap), cap)
    decreases |ops|
  {
    hide Step, Ok;
    if ops != [] {
      StepOk(s, ops[0], cap);
      RunOk(Step(s, ops[0], cap), ops[1..], cap);
    }
  }

  ghost predicate Backed(s: seq<Stored>) { forall i :: 0 <= i < |s| ==> s[i].data.Some? }

  lemma StepBacked(s: seq<Stored>, op: Op, cap: int)
    requires Backed(s) && !op.Vanish?
    ensures Backed(Step(s, op, cap))
  {
    hide Weight, Fitted;
    if op.Store? { var k := FittedFrom(s + [Stored(op.digest, |op.data|, Some(op.data))], cap); }
  }

  /** While nothing but the cache removes files, every entry of the index has its file. */
  lemma {:induction false} RunBacked(s: seq<Stored>, ops: seq<Op>, cap: int)
    requires Backed(s) && forall i :: 0 <= i < |ops| ==> !ops[i].Vanish?
    ensures Backed(Run(s, ops, cap))
    decreases |ops|
  {
    hide Step, Backed;
    if ops != [] {
      StepBacked(s, ops[0], cap);
      RunBacked(Step(s, ops[0], cap), ops[1..], cap);
    }
  }

  /** An index lacks a file in some run only if something else removed one. */
  lemma RunAgrees(ops: seq<Op>, cap: int)
    requires forall i :: 0 <= i < |ops| ==> !ops[i].Vanish?
    ensures
      var s := Run([], ops, cap);
      Ok(s, cap) && Backed(s) && forall d :: Found(s, d).Some? <==> Position(s, d) < |s|
  {
    hide Run;
    RunOk([], ops, cap);
    RunBacked([], ops, cap);
  }

  // ---- what is most recently used ---------------------------------------------------------------------

  /** The position, from one, of the last fetch or store of a digest among the operations; zero for none. */
  function LastUse(ops: seq<Op>, d: Digest): nat {
    if ops == [] then 0
    else if !ops[|ops| - 1].Vanish? && ops[|ops| - 1].digest == d then |ops|
    else LastUse(ops[..|ops| - 1], d)
  }

  lemma {:induction false} LastUseBound(ops: seq<Op>, d: Digest)
    ensures LastUse(ops, d) <= |ops|
    decreases |ops|
  {
    if ops != [] { LastUseBound(ops[..|ops| - 1], d); }
  }

  /** The list stands in the order of last use, and lists nothing that was never used. */
  ghost predicate Ordered(s: seq<Stored>, ops: seq<Op>) {
    && (forall i :: 0 <= i < |s| ==> LastUse(ops, s[i].digest) > 0)
    && (forall i, k :: 0 <= i < k < |s| ==> LastUse(ops, s[i].digest) < LastUse(ops, s[k].digest))
  }

  lemma UseAppend(ops: seq<Op>, op: Op, d: Digest)
    ensures LastUse(ops + [op], d) == if !op.Vanish? && op.digest == d then |ops| + 1 else LastUse(ops, d)
    ensures LastUse(ops, d) <= |ops|
  {
    assert (ops + [op])[..|ops + [op]| - 1] == ops;
    LastUseBound(ops, d);
  }

  /** What one operation does to every digest's last use. */
  ghost predicate UsedNow(ops: seq<Op>, op: Op) {
    forall d :: LastUse(ops, d) <= |ops|
      && LastUse(ops + [op], d) == if !op.Vanish? && op.digest == d then |ops| + 1 else LastUse(ops, d)
  }

  lemma UseNow(ops: seq<Op>, op: Op)
    ensures UsedNow(ops, op)
  {
    hide LastUse;
    forall d
      ensures LastUse(ops, d) <= |ops|
      ensures LastUse(ops + [op], d) == if !op.Vanish? && op.digest == d then |ops| + 1 else LastUse(ops, d)
    {
      UseAppend(ops, op, d);
    }
  }

  lemma RefreshOrdered(s: seq<Stored>, ops: seq<Op>, op: Op, i: nat)
    requires Distinct(s) && Ordered(s, ops) && UsedNow(ops, op) && i < |s| && s[i].digest == op.digest && !op.Vanish?
    ensures Ordered(Refresh(s, i), ops + [op])
  {
    hide LastUse;
    var t := Forget(s, i);
    forall k | 0 <= k < |t| ensures t[k].digest != op.digest && LastUse(ops + [op], t[k].digest) > 0 {
      assert t[k] == s[if k < i then k else k + 1];
    }
  }

  lemma ForgetOrdered(s: seq<Stored>, ops: seq<Op>, op: Op, i: nat)
    requires Distinct(s) && Ordered(s, ops) && UsedNow(ops, op) && i < |s| && s[i].digest == op.digest
    ensures Ordered(Forget(s, i), ops + [op])
  {
    hide LastUse;
    var t := Forget(s, i);
    forall k | 0 <= k < |t| ensures t[k].digest != op.digest {
      assert t[k] == s[if k < i then k else k + 1];
    }
  }

  lemma NewOrdered(s: seq<Stored>, ops: seq<Op>, d: Digest, data: Bytes)
    requires Ordered(s, ops) && Position(s, d) == |s|
    ensures Ordered(s + [Stored(d, |data|, Some(data))], ops + [Store(d, data)])
  {
    hide LastUse;
    UseNow(ops, Store(d, data));
  }

  lemma SuffixOrdered(s: seq<Stored>, ops: seq<Op>, k: nat)
    requires Ordered(s, ops) && k <= |s|
    ensures Ordered(s[k..], ops)
  {
    hide LastUse;
  }

  lemma StepOrdered(s: seq<Stored>, ops: seq<Op>, op: Op, cap: int)
    requires Distinct(s) && Ordered(s, ops)
    ensures Ordered(Step(s, op, cap), ops + [op])
  {
    hide Weight, Fitted, LastUse, Forget, Refresh, Distinct;
    UseNow(ops, op);
    var i := Position(s, op.digest);
    match op {
      case Fetch(_) =>
        if i < |s| {
          RefreshOrdered(s, ops, op, i);
          ForgetOrdered(s, ops, op, i);
        }
      case Store(d, data) =>
        if i < |s| {
          RefreshOrdered(s, ops, op, i);
        } else {
          NewOrdered(s, ops, d, data);
          var k := FittedFrom(s + [Stored(d, |data|, Some(data))], cap);
          SuffixOrdered(s + [Stored(d, |data|, Some(data))], ops + [op], k);
        }
      case Vanish(_) =>
    }
  }

  lemma RunSnoc(s: seq<Stored>, ops: seq<Op>, op: Op, cap: int)
    ensures Run(s, ops + [op], cap) == Step(Run(s, ops, cap), op, cap)
    decreases |ops|
  {
    hide Step;
    if ops == [] {
      assert [] + [op] == [op] && [op][1..] == [];
    } else {
      assert (ops + [op])[0] == ops[0] && (ops + [op])[1..] == ops[1..] + [op];
      RunSnoc(Step(s, ops[0], cap), ops[1..], op, cap);
    }
  }

  /** Over every run the index stands in the order in which its digests were last fetched or stored. */
  lemma {:induction false} RunOrdered(ops: seq<Op>, cap: int)
    ensures Ok(Run([], ops, cap), cap) && Ordered(Run([], ops, cap), ops)
    decreases |ops|
  {
    hide Step, Run;
    RunOk([], ops, cap);
    if ops == [] {
      assert Run([], [], cap) == [] by { RunNothing([], cap); }
    } else {
      var n := |ops| - 1;
      RunOrdered(ops[..n], cap);
      assert ops == ops[..n] + [ops[n]];
      RunSnoc([], ops[..n], ops[n], cap);
      StepOrdered(Run([], ops[..n], cap), ops[..n], ops[n], cap);
    }
  }

  lemma RunNothing(s: seq<Stored>, cap: int)
    ensures Run(s, [], cap) == s
  {}

  /** The size of everything listed that was used no earlier than `since`. */
  function WeightSince(s: seq<Stored>, ops: seq<Op>, since: nat): nat {
    if s == [] then 0
    else (if LastUse(ops, s[0].digest) >= since then s[0].size else 0) + WeightSince(s[1..], ops, since)
  }

  lemma {:induction false} SinceIsSuffix(s: seq<Stored>, ops: seq<Op>, m: nat)
    requires Ordered(s, ops) && m < |s|
    ensures WeightSince(s, ops, LastUse(ops, s[m].digest)) == Weight(s[m..])
    decreases |s|
  {
    hide LastUse;
    if m > 0 {
      SinceIsSuffix(s[1..], ops, m - 1);
      assert s[1..][m - 1..] == s[m..];
    } else {
      assert s[0..] == s;
      if |s| > 1 {
        SinceAll(s[1..], ops, LastUse(ops, s[0].digest));
      } else {
        assert s[1..] == [];
      }
    }
  }

  lemma {:induction false} SinceAll(s: seq<Stored>, ops: seq<Op>, since: nat)
    requires forall i :: 0 <= i < |s| ==> LastUse(ops, s[i].digest) >= since
    ensures WeightSince(s, ops, since) == Weight(s)
    decreases |s|
  {
    if s != [] { SinceAll(s[1..], ops, since); }
  }

  /**
   A store of a new digest keeps exactly the entries, the new one included, that fit the cap
   together with everything used after them: the most recently used ones.
   */
  lemma EvictsLeastRecent(ops: seq<Op>, cap: int, d: Digest, data: Bytes)
    requires Position(Run([], ops, cap), d) == |Run([], ops, cap)|
    ensures
      var s, all := Run([], ops, cap) + [Stored(d, |data|, Some(data))], ops + [Store(d, data)];
      forall x :: x in Run([], all, cap) <==> x in s && WeightSince(s, all, LastUse(all, x.digest)) <= cap
  {
    hide Run, LastUse, Weight, Fitted, WeightSince;
    var before, all := Run([], ops, cap), ops + [Store(d, data)];
    var s := before + [Stored(d, |data|, Some(data))];
    RunOrdered(ops, cap);
    RunSnoc([], ops, Store(d, data), cap);
    NewOrdered(before, ops, d, data);
    var k := LongestSuffix(s, cap);
    forall m | 0 <= m < |s| ensures WeightSince(s, all, LastUse(all, s[m].digest)) <= cap <==> k <= m {
      SinceIsSuffix(s, all, m);
      if k <= m { SuffixWeight(s, k, m); }
    }
    Suffix(s, k);
  }

  lemma Suffix(s: seq<Stored>, k: nat)
    requires k <= |s|
    ensures forall x :: x in s[k..] <==> exists m :: k <= m < |s| && s[m] == x
  {}

  ghost predicate Genuine(s: seq<Stored>, puts: set<(Digest, Bytes)>) {
    forall i :: 0 <= i < |s| && s[i].data.Some? ==> (s[i].digest, s[i].data.value) in puts
  }

  function Puts(ops: seq<Op>): set<(Digest, Bytes)> {
    if ops == [] then {} else (if ops[0].Store? then {(ops[0].digest, ops[0].data)} else {}) + Puts(ops[1..])
  }

  lemma StepGenuine(s: seq<Stored>, op: Op, cap: int, puts: set<(Digest, Bytes)>)
    requires Genuine(s, puts)
    ensures Genuine(Step(s, op, cap), puts + Puts([op]))
  {
    hide Weight, Fitted;
    assert [op][1..] == [];
    var i := Position(s, op.digest);
    match op {
      case Fetch(_) =>
      case Store(d, data) => var k := FittedFrom(s + [Stored(d, |data|, Some(data))], cap);
      case Vanish(_) =>
    }
  }

  lemma {:induction false} RunGenuine(s: seq<Stored>, ops: seq<Op>, cap: int, puts: set<(Digest, Bytes)>)
    requires Genuine(s, puts)
    ensures Genuine(Run(s, ops, cap), puts + Puts(ops))
    decreases |ops|
  {
    hide Step, Genuine;
    if ops == [] {
      assert puts + {} == puts;
    } else {
      StepGenuine(s, ops[0], cap, puts);
      RunGenuine(Step(s, ops[0], cap), ops[1..], cap, puts + Puts([ops[0]]));
      assert [ops[0]][1..] == [];
      assert puts + Puts([ops[0]]) + Puts(ops[1..]) == puts + Puts(ops);
    }
  }

  /** A hit, in any run from an empty directory, returns bytes that were stored under that digest. */
  lemma HitIsGenuine(ops: seq<Op>, cap: int, d: Digest)
    ensures
      var r := Found(Run([], ops, cap), d);
      r.Some? ==> (d, r.value) in Puts(ops)
  {
    hide Run;
    RunGenuine([], ops, cap, {});
    assert {} + Puts(ops) == Puts(ops);
  }

  /**
   What a fetch finds right after a store: for a new digest, the data exactly when it fits the
   cap on its own; for a listed one, whatever was there before, even a missing file.
   */
  lemma StoreThenFetch(s: seq<Stored>, d: Digest, data: Bytes, cap: int)
    requires Distinct(s)
    ensures
      var after := Step(s, Store(d, data), cap);
      var listed := Position(s, d) < |s|;
      && (listed ==> Found(after, d) == Found(s, d))
      && (!listed ==> Found(after, d) == if |data| <= cap then Some(data) else None)
  {
    hide Weight, Fitted;
    var e := Stored(d, |data|, Some(data));
    var i := Position(s, d);
    var after := Step(s, Store(d, data), cap);
    if i < |s| {
      PositionIs(after, d, |after| - 1);
    } else {
      var longer := s + [e];
      var k := LongestSuffix(longer, cap);
      var n := |longer| - 1;
      assert longer[n..] == [e];
      WeightOne(e);
      if |data| <= cap {
        assert k <= n;
        PositionIs(after, d, n - k);
      } else {
        SuffixWeight(longer, k, n);
        assert k == |longer|;
      }
    }
  }

  /** A file that vanishes is no longer found, and nothing else changes for a fetch. */
  lemma VanishLoses(s: seq<Stored>, d: Digest, x: Digest, cap: int)
    requires Distinct(s)
    ensures Found(Step(s, Vanish(d), cap), x) == if x == d then None else Found(s, x)
  {
    var after := Step(s, Vanish(d), cap);
    PositionIs(after, x, Position(s, x));
  }

  /** Storing a listed digest whose file is gone leaves it unfound. */
  lemma VanishedStays(s: seq<Stored>, data: Bytes)
    requires s == [Stored(3, 1, None)] && |data| == 1
    ensures Found(Step(s, Store(3, data), 10), 3) == None
  {
    StoreThenFetch(s, 3, data, 10);
  }

  lemma {:induction false} PositionIs(s: seq<Stored>, d: Digest, i: nat)
    requires i <= |s| && (i < |s| ==> s[i].digest == d) && forall k :: 0 <= k < i ==> s[k].digest != d
    ensures Position(s, d) == i
  {
    if i > 0 { PositionIs(s[1..], d, i - 1); }
  }

  lemma SuffixWeight(s: seq<Stored>, k: nat, n: nat)
    requires k <= |s| && n <= |s|
    ensures k <= n ==> Weight(s[k..]) >= Weight(s[n..])
  {
    if k <= n {
      assert s[k..] == s[k..n] + s[n..];
      WeightConcat(s[k..n], s[n..]);
    }
  }

  // ---- the cache, changed in place -----------------------------------------------------------------

  datatype Entry = Entry(digest: Digest, size: nat)

  function Look(e: Entry, files: map<Digest, Bytes>): Stored {
    Stored(e.digest, e.size, if e.digest in files then Some(files[e.digest]) else None)
  }

  function Joined(index: seq<Entry>, files: map<Digest, Bytes>): seq<Stored> {
    seq(|index|, i requires 0 <= i < |index| => Look(index[i], files))
  }

  function Digests(index: seq<Entry>): set<Digest> { set e | e in index :: e.digest }

  class Cache {
    const cap: int
    var index: seq<Entry>
    var files: map<Digest, Bytes>

    /** Index and files together, as the recency list. */
    ghost function View(): seq<Stored>
      reads this
    {
      Joined(index, files)
    }

    /** Each digest is listed once, with its file's size, and every file is listed. */
    ghost predicate Valid()
      reads this
    {
      Distinct(View()) && Sized(View()) && files.Keys <= Digests(index)
    }

    /** Index and files name the same digests: nothing else has touched the directory. */
    ghost predicate Agrees()
      reads this
    {
      files.Keys == Digests(index)
    }

    constructor (cap: int)
      ensures Valid() && Agrees() && View() == [] && this.cap == cap
    {
      this.cap, index, files := cap, [], map[];
    }

    method FindEntry(d: Digest) returns (i: nat)
      ensures i == Position(View(), d) && i <= |index| && (i < |index| <==> d in Digests(index))
    {
      i := 0;
      while i < |index| && index[i].digest != d
        invariant i <= |index| && forall k :: 0 <= k < i ==> index[k].digest != d
      {
        i := i + 1;
      }
      PositionIs(View(), d, i);
    }

    method TotalBytes() returns (total: nat)
      ensures total == Weight(View())
    {
      total := 0;
      var i := |index|;
      while i > 0
        invariant 0 <= i <= |index| && total == Weight(View()[i..])
      {
        i := i - 1;
        assert View()[i..][1..] == View()[i + 1..];
        total := total + index[i].size;
      }
      assert View()[0..] == View();
    }

    /** The cached bytes, marked most recently used; none on a miss. */
    method Get(d: Digest) returns (data: Option<Bytes>)
      requires Valid()
      modifies this`index
      ensures Valid() && View() == old(Step(View(), Fetch(d), cap)) && data == old(Found(View(), d))
      ensures old(Agrees()) ==> Agrees() && (data.Some? <==> d in old(Digests(index)))
    {
      hide Position;
      var i := FindEntry(d);
      if i == |index| {
        return None;
      }
      Removed(index, files, i);
      Refreshed(index, files, i);
      if d !in files {
        index := index[..i] + index[i + 1..];
        return None;
      }
      index := index[..i] + index[i + 1..] + [index[i]];
      data := Some(files[d]);
    }

    /** Cache the bytes under a new digest and evict; a listed digest is only marked recent. */
    method Put(d: Digest, data: Bytes)
      requires Valid()
      modifies this
      ensures Valid() && View() == old(Step(View(), Store(d, data), cap))
      ensures old(Agrees()) ==> Agrees()
    {
      hide Position, Fitted;
      var i := FindEntry(d);
      if i < |index| {
        Refreshed(index, files, i);
        index := index[..i] + index[i + 1..] + [index[i]];
      } else {
        assert forall k :: 0 <= k < |index| ==> index[k].digest == View()[k].digest;
        Added(index, files, d, data);
        files := files[d := data];
        index := index + [Entry(d, |data|)];
        Evict();
      }
    }

    method Evict()
      requires Valid()
      modifies this`index, this`files
      ensures Valid() && View() == old(Fitted(View(), cap))
      ensures old(Agrees()) ==> Agrees()
    {
      hide Weight;
      var total := TotalBytes();
      while total > cap && index != []
        invariant Valid() && total == Weight(View())
        invariant Fitted(View(), cap) == old(Fitted(View(), cap))
        invariant old(Agrees()) ==> Agrees()
        decreases |index|
      {
        Popped(index, files);
        index, files := index[1..], files - {index[0].digest};
        total := TotalBytes();
      }
    }
  }

  // ---- index and files move together -----------------------------------------------------------------

  ghost predicate Paired(index: seq<Entry>, files: map<Digest, Bytes>) {
    Distinct(Joined(index, files)) && Sized(Joined(index, files)) && files.Keys <= Digests(index)
  }

  /** Digests of an index with one entry taken out. */
  lemma DigestsWithout(index: seq<Entry>, i: nat)
    requires i < |index|
    ensures Digests(index) == Digests(index[..i] + index[i + 1..]) + {index[i].digest}
  {
    var rest := index[..i] + index[i + 1..];
    assert index == index[..i] + [index[i]] + index[i + 1..];
    assert forall e :: e in index <==> e in rest || e == index[i];
    assert index[i] in index;
  }

  lemma Removed(index: seq<Entry>, files: map<Digest, Bytes>, i: nat)
    requires Paired(index, files) && i < |index|
    ensures
      var rest := index[..i] + index[i + 1..];
      && Joined(rest, files) == Forget(Joined(index, files), i)
      && (index[i].digest !in files ==> Paired(rest, files))
  {
    DigestsWithout(index, i);
  }

  lemma Refreshed(index: seq<Entry>, files: map<Digest, Bytes>, i: nat)
    requires Paired(index, files) && i < |index|
    ensures
      var rest := index[..i] + index[i + 1..] + [index[i]];
      && Joined(rest, files) == Refresh(Joined(index, files), i) && Paired(rest, files)
      && Digests(rest) == Digests(index) && index[i].digest in Digests(index)
  {
    var others := index[..i] + index[i + 1..];
    DigestsWithout(index, i);
    DigestsWithout(others + [index[i]], |others|);
    assert (others + [index[i]])[..|others|] + (others + [index[i]])[|others| + 1..] == others;
  }

  lemma Added(index: seq<Entry>, files: map<Digest, Bytes>, d: Digest, data: Bytes)
    requires Paired(index, files) && forall k :: 0 <= k < |index| ==> index[k].digest != d
    ensures
      var index', files' := index + [Entry(d, |data|)], files[d := data];
      && Joined(index', files') == Joined(index, files) + [Stored(d, |data|, Some(data))] && Paired(index', files')
      && Digests(index') == Digests(index) + {d}
  {
    var e := Entry(d, |data|);
    DigestsWithout(index + [e], |index|);
    assert (index + [e])[..|index|] + (index + [e])[|index| + 1..] == index;
  }

  lemma FirstOnly(index: seq<Entry>, files: map<Digest, Bytes>)
    requires Distinct(Joined(index, files)) && index != []
    ensures Digests(index[1..]) == Digests(index) - {index[0].digest}
  {
    DigestsWithout(index, 0);
    assert index[..0] + index[1..] == index[1..];
    forall k | 0 < k < |index| ensures index[k].digest != index[0].digest {
      assert Joined(index, files)[0].digest != Joined(index, files)[k].digest;
    }
  }

  lemma Popped(index: seq<Entry>, files: map<Digest, Bytes>)
    requires Paired(index, files) && index != []
    ensures
      var files' := files - {index[0].digest};
      && Joined(index[1..], files') == Joined(index, files)[1..] && Paired(index[1..], files')
      && Digests(index[1..]) == Digests(index) - {index[0].digest}
  {
    FirstOnly(index, files);
    assert forall k :: 0 < k < |index| ==> Joined(index, files)[k].digest != Joined(index, files)[0].digest;
  }
}
