/** The synthetic estate the traversal gate measures: a hub, a ring and leaves, with both indexes. */
module Estate {

  datatype Edge = Edge(caller: nat, callee: nat)

  /** Parties by number, contracts by number, and the two indexes over them. */
  datatype Projection = Projection(
    entities: set<nat>,
    contracts: map<nat, Edge>,
    byCaller: map<nat, set<nat>>,
    byCallee: map<nat, set<nat>>)

  const HUB: nat := 0

  function Ring(n: nat): (r: nat)
    ensures 2 <= r
  {
    if n / 100 < 2 then 2 else n / 100
  }

  function Parties(n: nat): (p: nat)
    ensures Ring(n) + 2 <= p
  {
    Ring(n) + n / Ring(n) + 2
  }

  function CallerOf(n: nat, i: nat): nat {
    if i < Ring(n) then HUB else 1 + i % Ring(n)
  }

  function CalleeOf(n: nat, i: nat): nat {
    i % (Parties(n) - 1) + 1
  }

  function Indexed(index: map<nat, set<nat>>, party: nat, cid: nat): map<nat, set<nat>> {
    index[party := (if party in index then index[party] else {}) + {cid}]
  }

  predicate Listed(index: map<nat, set<nat>>, party: nat, cid: nat) {
    party in index && cid in index[party]
  }

  /** The index lists a contract under a party exactly when the contract map says so. */
  ghost predicate Consistent(p: Projection) {
    && (forall party, cid :: Listed(p.byCaller, party, cid) <==> cid in p.contracts && p.contracts[cid].caller == party)
    && (forall party, cid :: Listed(p.byCallee, party, cid) <==> cid in p.contracts && p.contracts[cid].callee == party)
  }

  /** The contracts of an estate of size `n`, up to number `upto`. */
  ghost predicate Holds(p: Projection, n: nat, upto: nat) {
    forall i ::
      && (i in p.contracts <==> 0 <= i < upto && CallerOf(n, i) != CalleeOf(n, i))
      && (i in p.contracts ==> p.contracts[i] == Edge(CallerOf(n, i), CalleeOf(n, i)))
  }

  ghost predicate Built(p: Projection, n: nat) {
    && (forall i: nat :: i in p.entities <==> i < Parties(n))
    && Holds(p, n, n)
  }

  lemma IndexingAdds(index: map<nat, set<nat>>, party: nat, cid: nat)
    ensures forall q, d :: Listed(Indexed(index, party, cid), q, d) <==> Listed(index, q, d) || (q == party && d == cid)
  {
  }

  method BenchEstate(n: nat) returns (p: Projection)
    ensures Built(p, n) && Consistent(p)
  {
    var ring := if n / 100 < 2 then 2 else n / 100;
    var parties := ring + n / ring + 2;
    p := Projection({}, map[], map[], map[]);
    for i := 0 to parties
      invariant p == Projection(p.entities, map[], map[], map[])
      invariant forall k: nat :: k in p.entities <==> k < i
    {
      p := p.(entities := p.entities + {i});
    }
    for i := 0 to n
      invariant forall k: nat :: k in p.entities <==> k < parties
      invariant Holds(p, n, i) && Consistent(p)
    {
      var caller := if i < ring then 0 else 1 + i % ring;
      var callee := i % (parties - 1) + 1;
      assert caller == CallerOf(n, i) && callee == CalleeOf(n, i);
      if caller == callee {
        SkippedIsHeld(p, n, i);
        continue;
      }
      ghost var before := p;
      p := Contract(p, i, caller, callee);
      ContractIsHeld(before, p, n, i);
    }
  }

  /** One contract into the map and both indexes. */
  method Contract(p: Projection, i: nat, caller: nat, callee: nat) returns (next: Projection)
    requires Consistent(p) && i !in p.contracts
    ensures Consistent(next) && next.entities == p.entities && next.contracts == p.contracts[i := Edge(caller, callee)]
  {
    next := p.(contracts := p.contracts[i := Edge(caller, callee)],
               byCaller := Indexed(p.byCaller, caller, i),
               byCallee := Indexed(p.byCallee, callee, i));
    ContractStaysConsistent(p, next, i, caller, callee);
  }

  lemma SkippedIsHeld(p: Projection, n: nat, i: nat)
    requires Holds(p, n, i) && CallerOf(n, i) == CalleeOf(n, i)
    ensures Holds(p, n, i + 1)
  {
  }

  lemma ContractIsHeld(p: Projection, next: Projection, n: nat, i: nat)
    requires Holds(p, n, i) && CallerOf(n, i) != CalleeOf(n, i)
    requires next.contracts == p.contracts[i := Edge(CallerOf(n, i), CalleeOf(n, i))]
    ensures Holds(next, n, i + 1)
  {
  }

  lemma ContractStaysConsistent(p: Projection, next: Projection, i: nat, caller: nat, callee: nat)
    requires Consistent(p) && i !in p.contracts
    requires next == p.(contracts := p.contracts[i := Edge(caller, callee)],
                        byCaller := Indexed(p.byCaller, caller, i),
                        byCallee := Indexed(p.byCallee, callee, i))
    ensures Consistent(next)
  {
    IndexingAdds(p.byCaller, caller, i);
    IndexingAdds(p.byCallee, callee, i);
  }

  // ---------------------------------------------------------------------------
  // The shape of what is built
  // ---------------------------------------------------------------------------

  /** Every edge joins two different registered parties. */
  lemma EdgesJoinRegisteredParties(p: Projection, n: nat, cid: nat)
    requires Built(p, n) && cid in p.contracts
    ensures var e := p.contracts[cid];
            e.caller in p.entities && e.callee in p.entities && e.caller != e.callee && e.callee != HUB
  {
    assert p.contracts[cid] == Edge(CallerOf(n, cid), CalleeOf(n, cid));
    assert cid % Ring(n) < Ring(n) && cid % (Parties(n) - 1) < Parties(n) - 1;
  }

  /** Reachable from the hub in at most `hops` contracts. */
  ghost predicate Within(p: Projection, party: nat, hops: nat)
    decreases hops
  {
    || party == HUB
    || (hops > 0 && exists cid :: cid in p.contracts && p.contracts[cid].callee == party
                                  && Within(p, p.contracts[cid].caller, hops - 1))
  }

  lemma QuotientShrinks(n: nat, d: nat)
    requires 3 <= d
    ensures n / d <= n / 3
  {
    var q := n / d;
    assert q * d <= n;
    assert q * 3 <= q * d;
  }

  /** From five contracts on there are at least as many contracts as parties to reach, and below five there are not. */
  lemma EnoughContracts(n: nat)
    ensures n >= 5 <==> n >= Parties(n) - 1
  {
    if n >= 300 { QuotientShrinks(n, Ring(n)); }
  }

  lemma CalleeInOrder(n: nat, i: nat)
    requires i < Parties(n) - 1
    ensures CalleeOf(n, i) == i + 1
  {
  }

  /** Contract `party - 1` leads to `party`, from the hub or from the ring. */
  lemma OwnContract(p: Projection, n: nat, party: nat)
    requires Built(p, n) && n >= Parties(n) - 1 && 1 <= party < Parties(n)
    ensures party - 1 in p.contracts && p.contracts[party - 1].callee == party
    ensures party <= Ring(n) ==> p.contracts[party - 1].caller == HUB
    ensures party > Ring(n) ==> 1 <= p.contracts[party - 1].caller <= Ring(n)
  {
    var i := party - 1;
    CalleeInOrder(n, i);
    assert i % Ring(n) < Ring(n);
  }

  lemma RingIsOneHop(p: Projection, n: nat, party: nat)
    requires Built(p, n) && n >= Parties(n) - 1 && 1 <= party <= Ring(n)
    ensures Within(p, party, 1)
  {
    OwnContract(p, n, party);
    assert Within(p, HUB, 0);
  }

  /** The last party is nobody's callee in an estate of fewer than five contracts. */
  lemma LastPartyIsCutOff(p: Projection, n: nat, hops: nat)
    requires Built(p, n) && n < Parties(n) - 1
    ensures Parties(n) - 1 in p.entities && !Within(p, Parties(n) - 1, hops)
  {
    forall cid | cid in p.contracts ensures p.contracts[cid].callee != Parties(n) - 1 {
      CalleeInOrder(n, cid);
    }
    NobodysCalleeIsCutOff(p, Parties(n) - 1, hops);
  }

  lemma NobodysCalleeIsCutOff(p: Projection, party: nat, hops: nat)
    requires party != HUB && forall cid | cid in p.contracts :: p.contracts[cid].callee != party
    ensures !Within(p, party, hops)
  {
  }

  /**
   * Every party is reachable from the hub exactly for estates of five contracts or more, and then
   * two hops are enough: the traversal never needs its third.
   */
  lemma EveryPartyWithinTwoHops(p: Projection, n: nat)
    requires Built(p, n)
    ensures (forall party :: party in p.entities ==> Within(p, party, 2)) <==> n >= 5
  {
    EnoughContracts(n);
    if n >= 5 {
      forall party | party in p.entities ensures Within(p, party, 2) {
        if 1 <= party { TwoHops(p, n, party); }
      }
    } else {
      LastPartyIsCutOff(p, n, 2);
    }
  }

  lemma TwoHops(p: Projection, n: nat, party: nat)
    requires Built(p, n) && n >= Parties(n) - 1 && 1 <= party < Parties(n)
    ensures Within(p, party, 2)
  {
    OwnContract(p, n, party);
    var caller := p.contracts[party - 1].caller;
    if caller != HUB { RingIsOneHop(p, n, caller); }
    assert Within(p, caller, 1);
  }

  /** And one hop is not: the party just past the ring is not a callee of the hub. */
  lemma OneHopIsNotEnough(p: Projection, n: nat)
    requires Built(p, n)
    ensures Ring(n) + 1 in p.entities && !Within(p, Ring(n) + 1, 1)
  {
    forall cid | cid in p.contracts && p.contracts[cid].caller == HUB
      ensures p.contracts[cid].callee != Ring(n) + 1
    {
      CalleeInOrder(n, cid);
    }
    NotOneHop(p, Ring(n) + 1);
  }

  lemma NotOneHop(p: Projection, party: nat)
    requires party != HUB
    requires forall cid | cid in p.contracts && p.contracts[cid].caller == HUB :: p.contracts[cid].callee != party
    ensures !Within(p, party, 1)
  {
  }
}
