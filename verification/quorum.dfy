/** Redundant-execution quorum: the output with a strict majority of the required votes wins. */
module Quorum {
  import opened Common

  datatype Vote = Vote(provider: nat, hash: Option<nat>, succeeded: bool)

  datatype Outcome = Outcome(winner: Option<nat>, agreers: seq<nat>, disagreers: seq<nat>)

  function Pick(votes: seq<Vote>, p: Vote -> bool): seq<Vote> {
    if votes == [] then [] else (if p(votes[0]) then [votes[0]] else []) + Pick(votes[1..], p)
  }

  function Providers(votes: seq<Vote>): seq<nat> {
    if votes == [] then [] else [votes[0].provider] + Providers(votes[1..])
  }

  function Usable(): Vote -> bool { (v: Vote) => v.succeeded && v.hash.Some? }

  function For(h: nat): Vote -> bool { (v: Vote) => v.succeeded && v.hash == Some(h) }

  function Against(agreers: set<nat>): Vote -> bool {
    (v: Vote) => v.provider !in agreers && (v.hash.Some? || !v.succeeded)
  }

  function Members(ps: seq<nat>): set<nat> { set p | p in ps }

  function Count(votes: seq<Vote>, h: nat): nat { |Pick(votes, For(h))| }

  function Needed(redundancy: nat): nat { redundancy / 2 + 1 }

  /** A strict majority of the votes required. */
  predicate Majority(votes: seq<Vote>, redundancy: nat, h: nat) { 2 * Count(votes, h) > redundancy }

  /** Every vote before the `i`th is for a hash with fewer votes. */
  ghost predicate Ahead(votes: seq<Vote>, h: nat, i: nat)
    requires i <= |votes| && forall v :: v in votes ==> v.hash.Some?
  {
    forall j :: 0 <= j < i ==> Count(votes, votes[j].hash.value) < Count(votes, h)
  }

  /** The most common hash among the first `k` votes; the first seen wins a tie. */
  function Leader(votes: seq<Vote>, k: nat): (best: Option<nat>)
    requires k <= |votes| && forall v :: v in votes ==> v.hash.Some?
    ensures k > 0 <==> best.Some?
    ensures best.Some? ==> exists i :: 0 <= i < k && votes[i].hash == best && Ahead(votes, best.value, i)
    ensures forall i :: 0 <= i < k ==> best.Some? && Count(votes, votes[i].hash.value) <= Count(votes, best.value)
  {
    if k == 0 then None
    else
      var best := Leader(votes, k - 1);
      assert votes[k - 1] in votes;
      var h := votes[k - 1].hash.value;
      if best.None? || Count(votes, h) > Count(votes, best.value) then Some(h) else best
  }

  lemma {:induction false} PickIs(votes: seq<Vote>, p: Vote -> bool)
    ensures forall v :: v in Pick(votes, p) <==> v in votes && p(v)
    ensures |Pick(votes, p)| <= |votes|
  {
    if votes != [] { PickIs(votes[1..], p); }
  }

  function Evaluate(attempts: seq<Vote>, redundancy: nat): Outcome {
    PickIs(attempts, Usable());
    var usable := Pick(attempts, Usable());
    var best := Leader(usable, |usable|);
    if best.None? || Count(usable, best.value) < Needed(redundancy) then Outcome(None, [], [])
    else
      var agreers := Providers(Pick(attempts, For(best.value)));
      Outcome(best, agreers, Providers(Pick(attempts, Against(Members(agreers)))))
  }

  // ---- counting --------------------------------------------------------------------------------

  lemma {:induction false} ProvidersIs(votes: seq<Vote>)
    ensures forall p :: p in Providers(votes) <==> exists v :: v in votes && v.provider == p
  {
    if votes != [] {
      ProvidersIs(votes[1..]);
      forall p ensures p in Providers(votes) <==> exists v :: v in votes && v.provider == p {
        if p in Providers(votes) && p != votes[0].provider {
          assert p in Providers(votes[1..]);
          var v :| v in votes[1..] && v.provider == p;
          assert v in votes;
        }
        if v :| v in votes && v.provider == p {
          assert v == votes[0] || v in votes[1..];
        }
      }
    }
  }

  /** Votes for a hash are usable votes, so filtering first changes no count. */
  lemma {:induction false} UsableCount(votes: seq<Vote>, h: nat)
    ensures Count(Pick(votes, Usable()), h) == Count(votes, h)
  {
    if votes != [] {
      UsableCount(votes[1..], h);
      var rest := Pick(votes[1..], Usable());
      if Usable()(votes[0]) {
        assert Pick(votes, Usable()) == [votes[0]] + rest && ([votes[0]] + rest)[1..] == rest;
      } else {
        assert Pick(votes, Usable()) == rest;
      }
    }
  }

  /** Votes for two hashes are different votes. */
  lemma {:induction false} CountsFit(votes: seq<Vote>, g: nat, h: nat)
    requires g != h
    ensures Count(votes, g) + Count(votes, h) <= |Pick(votes, Usable())|
  {
    if votes != [] { CountsFit(votes[1..], g, h); }
  }

  /** No hash has more votes than the leader. */
  lemma LeaderLeads(attempts: seq<Vote>, h: nat)
    requires Count(attempts, h) > 0
    ensures
      var usable := Pick(attempts, Usable());
      && (forall v :: v in usable ==> v.hash.Some?)
      && Leader(usable, |usable|).Some?
      && Count(attempts, h) <= Count(usable, Leader(usable, |usable|).value)
  {
    hide Pick, Leader;
    var usable := Pick(attempts, Usable());
    PickIs(attempts, Usable());
    UsableCount(attempts, h);
    PickIs(usable, For(h));
    var v := Pick(usable, For(h))[0];
    assert v in usable && v.hash == Some(h);
    var i :| 0 <= i < |usable| && usable[i] == v;
    var best := Leader(usable, |usable|);
    assert Count(usable, usable[i].hash.value) <= Count(usable, best.value);
  }

  /** A hash is declared the winner exactly when some hash has a strict majority of the votes required. */
  lemma WinnerIff(attempts: seq<Vote>, redundancy: nat)
    ensures
      var o := Evaluate(attempts, redundancy);
      && (o.winner.Some? ==> Majority(attempts, redundancy, o.winner.value))
      && (o.winner.Some? <==> exists h :: Majority(attempts, redundancy, h))
  {
    hide Pick, Leader, Providers, Count;
    var usable := Pick(attempts, Usable());
    PickIs(attempts, Usable());
    var best := Leader(usable, |usable|);
    if best.Some? { UsableCount(attempts, best.value); }
    if h :| Majority(attempts, redundancy, h) {
      LeaderLeads(attempts, h);
    }
  }

  /** With no more usable results than votes required, at most one hash can have a majority. */
  lemma MajorityUnique(attempts: seq<Vote>, redundancy: nat, g: nat, h: nat)
    requires |Pick(attempts, Usable())| <= redundancy
    requires Majority(attempts, redundancy, g) && Majority(attempts, redundancy, h)
    ensures g == h
  {
    if g != h { CountsFit(attempts, g, h); }
  }

  /** The outcome names the majority hash; its voters agree, everyone else with a say disagrees, no one does both. */
  lemma Sides(attempts: seq<Vote>, redundancy: nat)
    ensures
      var o := Evaluate(attempts, redundancy);
      && (forall p :: p in o.agreers ==> p !in o.disagreers)
      && (o.winner.None? ==> o.agreers == [] && o.disagreers == [])
      && (o.winner.Some? ==>
        && o.agreers != []
        && (forall p :: p in o.agreers <==> exists v :: v in attempts && v.provider == p && For(o.winner.value)(v))
        && (forall p :: p in o.disagreers <==>
          p !in o.agreers && exists v :: v in attempts && v.provider == p && (v.hash.Some? || !v.succeeded)))
  {
    var o := Evaluate(attempts, redundancy);
    if o.winner.Some? {
      var h := o.winner.value;
      WinnerIff(attempts, redundancy);
      PickIs(attempts, For(h));
      ProvidersIs(Pick(attempts, For(h)));
      var agreed := Members(o.agreers);
      PickIs(attempts, Against(agreed));
      ProvidersIs(Pick(attempts, Against(agreed)));
      var v := Pick(attempts, For(h))[0];
      assert v.provider in o.agreers;
    }
  }

  // ---- order independence -----------------------------------------------------------------------

  lemma {:induction false} PickConcat(a: seq<Vote>, b: seq<Vote>, p: Vote -> bool)
    ensures Pick(a + b, p) == Pick(a, p) + Pick(b, p)
  {
    if a == [] {
      assert a + b == b;
    } else {
      assert (a + b)[0] == a[0] && (a + b)[1..] == a[1..] + b;
      PickConcat(a[1..], b, p);
      var first := if p(a[0]) then [a[0]] else [];
      assert first + (Pick(a[1..], p) + Pick(b, p)) == (first + Pick(a[1..], p)) + Pick(b, p);
    }
  }

  lemma {:induction false} ProvidersConcat(a: seq<Vote>, b: seq<Vote>)
    ensures Providers(a + b) == Providers(a) + Providers(b)
  {
    if a == [] {
      assert a + b == b;
    } else {
      assert (a + b)[1..] == a[1..] + b;
      ProvidersConcat(a[1..], b);
    }
  }

  /** A permutation with its first vote taken out of both sides. */
  lemma Unfold(a: seq<Vote>, b: seq<Vote>) returns (l: seq<Vote>, r: seq<Vote>)
    requires a != [] && multiset(a) == multiset(b)
    ensures b == l + [a[0]] + r && multiset(a[1..]) == multiset(l + r)
  {
    assert a == [a[0]] + a[1..];
    assert a[0] in multiset(b);
    var j :| 0 <= j < |b| && b[j] == a[0];
    l, r := b[..j], b[j + 1..];
    assert b == l + [a[0]] + r;
    assert multiset(l + r) == multiset(b) - multiset{a[0]};
    assert multiset(a[1..]) == multiset(a) - multiset{a[0]};
  }

  lemma {:induction false} PickPermuted(a: seq<Vote>, b: seq<Vote>, p: Vote -> bool)
    requires multiset(a) == multiset(b)
    ensures multiset(Pick(a, p)) == multiset(Pick(b, p))
    decreases |a|
  {
    if a == [] {
      assert |multiset(b)| == 0;
      assert b == [];
    } else {
      var l, r := Unfold(a, b);
      PickPermuted(a[1..], l + r, p);
      PickConcat(l, r, p);
      PickConcat(l + [a[0]], r, p);
      PickConcat(l, [a[0]], p);
      assert Pick([a[0]], p) == if p(a[0]) then [a[0]] else [];
    }
  }

  lemma {:induction false} ProvidersPermuted(a: seq<Vote>, b: seq<Vote>)
    requires multiset(a) == multiset(b)
    ensures multiset(Providers(a)) == multiset(Providers(b))
    decreases |a|
  {
    if a == [] {
      assert |multiset(b)| == 0;
      assert b == [];
    } else {
      var l, r := Unfold(a, b);
      ProvidersPermuted(a[1..], l + r);
      ProvidersConcat(l, r);
      ProvidersConcat(l + [a[0]], r);
      ProvidersConcat(l, [a[0]]);
      assert Providers([a[0]]) == [a[0].provider];
    }
  }

  lemma CountPermuted(a: seq<Vote>, b: seq<Vote>, h: nat)
    requires multiset(a) == multiset(b)
    ensures Count(a, h) == Count(b, h)
  {
    PickPermuted(a, b, For(h));
    assert |multiset(Pick(a, For(h)))| == |multiset(Pick(b, For(h)))|;
  }

  lemma Named(attempts: seq<Vote>, redundancy: nat)
    ensures
      var o := Evaluate(attempts, redundancy);
      if o.winner.None? then o == Outcome(None, [], [])
      else
        && o.agreers == Providers(Pick(attempts, For(o.winner.value)))
        && o.disagreers == Providers(Pick(attempts, Against(Members(o.agreers))))
  {}

  /** Two hashes lead together with the votes they need. */
  ghost predicate Tied(attempts: seq<Vote>, redundancy: nat) {
    exists g, h :: g != h && Leads(attempts, redundancy, g) && Leads(attempts, redundancy, h)
  }

  ghost predicate Leads(attempts: seq<Vote>, redundancy: nat, h: nat) {
    Majority(attempts, redundancy, h) && forall x :: Count(attempts, x) <= Count(attempts, h)
  }

  lemma WinnerLeads(attempts: seq<Vote>, redundancy: nat)
    ensures
      var o := Evaluate(attempts, redundancy);
      o.winner.Some? ==> Leads(attempts, redundancy, o.winner.value)
  {
    hide Pick, Leader, Providers, Count;
    WinnerIff(attempts, redundancy);
    var o := Evaluate(attempts, redundancy);
    if o.winner.Some? {
      forall x ensures Count(attempts, x) <= Count(attempts, o.winner.value) {
        PickIs(attempts, Usable());
        UsableCount(attempts, o.winner.value);
        if Count(attempts, x) > 0 { LeaderLeads(attempts, x); }
      }
    }
  }

  lemma {:induction false} FirstLeads(votes: seq<Vote>, k: nat)
    requires 0 < k <= |votes| && forall v :: v in votes ==> v.hash.Some?
    requires votes[0] in votes && forall x :: Count(votes, x) <= Count(votes, votes[0].hash.value)
    ensures Leader(votes, k) == votes[0].hash
  {
    hide Count;
    if k > 1 { FirstLeads(votes, k - 1); }
  }

  lemma Rotate(attempts: seq<Vote>, v: Vote) returns (rest: seq<Vote>)
    requires v in attempts
    ensures multiset([v] + rest) == multiset(attempts)
  {
    var j :| 0 <= j < |attempts| && attempts[j] == v;
    rest := attempts[..j] + attempts[j + 1..];
    assert attempts == attempts[..j] + [v] + attempts[j + 1..];
  }

  /** Reading a vote for a leading hash first makes that hash the winner. */
  lemma MoveToFront(attempts: seq<Vote>, redundancy: nat, h: nat) returns (b: seq<Vote>)
    requires Leads(attempts, redundancy, h)
    ensures multiset(b) == multiset(attempts) && Evaluate(b, redundancy).winner == Some(h)
  {
    hide Leader, Providers, Pick;
    PickIs(attempts, For(h));
    var v := Pick(attempts, For(h))[0];
    assert v in Pick(attempts, For(h));
    var rest := Rotate(attempts, v);
    b := [v] + rest;
    var usable := Pick(b, Usable());
    PickIs(b, Usable());
    PickFront(v, rest);
    forall x ensures Count(usable, x) == Count(attempts, x) {
      UsableCount(b, x);
      CountPermuted(attempts, b, x);
    }
    FirstLeads(usable, |usable|);
  }

  lemma PickFront(v: Vote, rest: seq<Vote>)
    requires Usable()(v)
    ensures Pick([v] + rest, Usable()) == [v] + Pick(rest, Usable())
  {
    assert ([v] + rest)[1..] == rest;
  }

  /** The winner is the same in every reading order exactly when the lead is not tied. */
  lemma OrderMattersIff(a: seq<Vote>, redundancy: nat)
    ensures Tied(a, redundancy) <==>
      exists b :: multiset(b) == multiset(a) && Evaluate(b, redundancy).winner != Evaluate(a, redundancy).winner
  {
    hide Evaluate, Count, Leads;
    if Tied(a, redundancy) {
      var g, h :| g != h && Leads(a, redundancy, g) && Leads(a, redundancy, h);
      var x := MoveToFront(a, redundancy, g);
      var y := MoveToFront(a, redundancy, h);
      assert Evaluate(x, redundancy).winner != Evaluate(y, redundancy).winner;
    } else {
      forall b | multiset(b) == multiset(a) ensures Evaluate(b, redundancy).winner == Evaluate(a, redundancy).winner {
        OrderIndependent(a, b, redundancy);
      }
    }
  }

  /** Results that cannot outnumber the votes required cannot tie. */
  lemma FewCannotTie(attempts: seq<Vote>, redundancy: nat)
    requires |Pick(attempts, Usable())| <= redundancy
    ensures !Tied(attempts, redundancy)
  {
    if g, h :| g != h && Leads(attempts, redundancy, g) && Leads(attempts, redundancy, h) {
      MajorityUnique(attempts, redundancy, g, h);
    }
  }

  lemma LeadsPermuted(a: seq<Vote>, b: seq<Vote>, redundancy: nat, h: nat)
    requires multiset(a) == multiset(b) && Leads(b, redundancy, h)
    ensures Leads(a, redundancy, h)
  {
    forall x ensures Count(a, x) == Count(b, x) {
      CountPermuted(a, b, x);
    }
  }

  /** Untied, the whole decision does not depend on the order in which the attempts are read. */
  lemma OrderIndependent(a: seq<Vote>, b: seq<Vote>, redundancy: nat)
    requires multiset(a) == multiset(b) && !Tied(a, redundancy)
    ensures
      var x, y := Evaluate(a, redundancy), Evaluate(b, redundancy);
      && x.winner == y.winner && multiset(x.agreers) == multiset(y.agreers)
      && multiset(x.disagreers) == multiset(y.disagreers)
  {
    hide Evaluate, Pick, Providers, Count, Leads;
    var x, y := Evaluate(a, redundancy), Evaluate(b, redundancy);
    Named(a, redundancy);
    Named(b, redundancy);
    WinnerIff(a, redundancy);
    WinnerIff(b, redundancy);
    WinnerLeads(a, redundancy);
    WinnerLeads(b, redundancy);
    if x.winner.Some? {
      CountPermuted(a, b, x.winner.value);
      assert Majority(b, redundancy, x.winner.value);
    }
    if y.winner.Some? {
      CountPermuted(a, b, y.winner.value);
      assert Majority(a, redundancy, y.winner.value);
    }
    if x.winner.Some? && y.winner.Some? {
      var h := x.winner.value;
      LeadsPermuted(a, b, redundancy, y.winner.value);
      PickPermuted(a, b, For(h));
      ProvidersPermuted(Pick(a, For(h)), Pick(b, For(h)));
      var agreed := Members(x.agreers);
      assert agreed == Members(y.agreers) by {
        assert forall p :: p in x.agreers <==> p in multiset(x.agreers);
        assert forall p :: p in y.agreers <==> p in multiset(y.agreers);
      }
      PickPermuted(a, b, Against(agreed));
      ProvidersPermuted(Pick(a, Against(agreed)), Pick(b, Against(agreed)));
    }
  }

  /** Two different results for one vote: whichever is read first wins. */
  lemma TieDepends(a: Vote, b: Vote)
    requires a == Vote(0, Some(1), true) && b == Vote(1, Some(2), true)
    ensures Evaluate([a, b], 1).winner == Some(1) && Evaluate([b, a], 1).winner == Some(2)
  {
    OneEach(a, b);
    OneEach(b, a);
  }

  lemma OneEach(a: Vote, b: Vote)
    requires Usable()(a) && Usable()(b) && a.hash != b.hash
    ensures Evaluate([a, b], 1).winner == a.hash
  {
    hide Leader, Providers;
    assert [a, b][1..] == [b] && [b][1..] == [];
    assert [b] + [] == [b] && [a] + [b] == [a, b] && Pick([], Usable()) == [];
    PickFront(b, []);
    PickFront(a, [b]);
    forall x: nat ensures Count([a, b], x) <= 1 == Count([a, b], a.hash.value) {
      assert Pick([], For(x)) == [];
      assert Pick([b], For(x)) == if b.hash == Some(x) then [b] else [];
      assert Pick([b], For(a.hash.value)) == [];
    }
    FirstLeads([a, b], 2);
  }
}
