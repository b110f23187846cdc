/** Flow control: whether an agent processes a message, from the chain of agents it came
    through, and how far a cascade of messages can go under it. */
module Admission {
  import opened Common

  type uint32 = n: nat | n < TWO32

  /** An agent's limits; 0 switches a limit off, and no accepted agents accept all. */
  datatype Limits = Limits(cyclic: uint32, depth: uint32, accepted: seq<string>)

  function Occurrences(s: seq<string>, v: string): nat {
    if s == [] then 0 else Occurrences(s[..|s| - 1], v) + (if s[|s| - 1] == v then 1 else 0)
  }

  method Count(s: seq<string>, v: string) returns (n: nat)
    ensures n == Occurrences(s, v)
  {
    n := 0;
    for i := 0 to |s|
      invariant n == Occurrences(s[..i], v)
    {
      assert s[..i + 1][..i] == s[..i];
      if s[i] == v { n := n + 1; }
    }
    assert s[..|s|] == s;
  }

  method Contains(s: seq<string>, v: string) returns (found: bool)
    ensures found <==> v in s
  {
    for i := 0 to |s|
      invariant v !in s[..i]
    {
      if s[i] == v { return true; }
    }
    return false;
  }

  /** The three checks; counts and lengths are cut to 32 bits before they are compared. */
  predicate Admits(chain: seq<string>, agent: string, l: Limits) {
    && !(l.cyclic != 0 && Occurrences(chain, agent) % TWO32 >= l.cyclic)
    && !(l.depth != 0 && |chain| % TWO32 >= l.depth)
    && !(chain != [] && l.accepted != [] && chain[|chain| - 1] !in l.accepted)
  }

  method Admit(chain: seq<string>, agent: string, l: Limits) returns (ok: bool)
    ensures ok <==> Admits(chain, agent, l)
  {
    if l.cyclic != 0 {
      var n := Count(chain, agent);
      if n % TWO32 >= l.cyclic { return false; }
    }
    if l.depth != 0 && |chain| % TWO32 >= l.depth { return false; }
    if chain != [] && l.accepted != [] {
      var known := Contains(l.accepted, chain[|chain| - 1]);
      if !known { return false; }
    }
    return true;
  }

  /** The chain an agent publishes with: the one it received, and itself. */
  function Outgoing(chain: seq<string>, agent: string): seq<string> {
    chain + [agent]
  }

  method BuildAgents(chain: seq<string>, agent: string) returns (agents: seq<string>)
    ensures agents == Outgoing(chain, agent)
  {
    agents := [];
    agents := agents + chain;
    agents := agents + [agent];
  }

  // --------------------------------------------------------- what the limits mean

  lemma {:induction false} OccurrencesBounded(s: seq<string>, v: string)
    ensures Occurrences(s, v) <= |s|
  {
    if s != [] { OccurrencesBounded(s[..|s| - 1], v); }
  }

  /** An admitted message's chain is shorter than the depth limit exactly if its length
      fits 32 bits; likewise its agent's occurrences and the cyclic limit. */
  lemma LimitsHoldExactly(chain: seq<string>, agent: string, l: Limits)
    requires Admits(chain, agent, l)
    ensures l.depth != 0 ==> (|chain| < l.depth <==> |chain| < TWO32)
    ensures l.cyclic != 0 ==> (Occurrences(chain, agent) < l.cyclic <==> Occurrences(chain, agent) < TWO32)
  {
  }

  lemma {:induction false} OccurrencesOfItself(agent: string, n: nat)
    ensures Occurrences(seq(n, _ => agent), agent) == n
  {
    if n > 0 {
      assert seq(n, _ => agent)[..n - 1] == seq(n - 1, _ => agent);
      OccurrencesOfItself(agent, n - 1);
    }
  }

  /** A chain of 2^32 times the same agent, which no broker message is large enough to carry,
      would pass any depth limit and any cyclic limit. */
  lemma LimitsWrapAround(agent: string, l: Limits)
    ensures Admits(seq(TWO32, _ => agent), agent, l) <==> l.accepted == [] || agent in l.accepted
  {
    OccurrencesOfItself(agent, TWO32);
  }

  /** The sender is the last agent of the chain: limits aside, a message is admitted exactly
      if its last agent is accepted, or all are; and never otherwise. */
  lemma SenderIsTheLast(chain: seq<string>, sender: string, agent: string, l: Limits)
    ensures Admits(chain + [sender], agent, l) ==> l.accepted == [] || sender in l.accepted
    ensures l.cyclic == 0 && l.depth == 0 && (l.accepted == [] || sender in l.accepted) ==>
              Admits(chain + [sender], agent, l)
  {
    var c := chain + [sender];
    assert c[|c| - 1] == sender;
  }

  /** For a chain shorter than 2^32 the checks are those documented: the agent occurs fewer
      times than the cyclic limit, the chain is shorter than the depth limit, and its last
      agent is accepted; 0 and an empty list switch a check off. */
  lemma AdmitsAsDocumented(chain: seq<string>, agent: string, l: Limits)
    requires |chain| < TWO32
    ensures Admits(chain, agent, l) <==>
            && (l.cyclic == 0 || multiset(chain)[agent] < l.cyclic)
            && (l.depth == 0 || |chain| < l.depth)
            && (chain == [] || l.accepted == [] || chain[|chain| - 1] in l.accepted)
  {
    OccurrencesAreCounted(chain, agent);
    OccurrencesBounded(chain, agent);
  }

  lemma {:induction false} OccurrencesAreCounted(s: seq<string>, v: string)
    ensures Occurrences(s, v) == multiset(s)[v]
  {
    if s != [] {
      OccurrencesAreCounted(s[..|s| - 1], v);
      assert s == s[..|s| - 1] + [s[|s| - 1]];
    }
  }

  // ------------------------------------------------------------------- cascades

  /** One hop: an agent admits a message and emits one that answers it, while it is live in
      its worker or too late. */
  datatype Hop = Hop(agent: string, limits: Limits, late: bool)

  /** The chain after the hops of a cascade that starts with `chain`: a late emit does not
      carry the chain of the message it answers. */
  function ChainAfter(chain: seq<string>, hops: seq<Hop>): seq<string> {
    if hops == [] then chain
    else
      var h := hops[|hops| - 1];
      Outgoing(if h.late then [] else ChainAfter(chain, hops[..|hops| - 1]), h.agent)
  }

  predicate AllLive(hops: seq<Hop>) {
    forall h :: h in hops ==> !h.late
  }

  /** Every agent of the cascade admitted what the one before it published. */
  predicate Cascade(chain: seq<string>, hops: seq<Hop>) {
    hops == [] ||
    var h := hops[|hops| - 1];
    Cascade(chain, hops[..|hops| - 1]) && Admits(ChainAfter(chain, hops[..|hops| - 1]), h.agent, h.limits)
  }

  lemma {:induction false} ChainGrowsByOne(chain: seq<string>, hops: seq<Hop>)
    requires AllLive(hops)
    ensures |ChainAfter(chain, hops)| == |chain| + |hops|
  {
    if hops != [] {
      assert hops[|hops| - 1] in hops;
      ChainGrowsByOne(chain, hops[..|hops| - 1]);
    }
  }

  /** The chain is the path: the initial chain and then the agents of the hops, in order. */
  lemma {:induction false} ChainIsThePath(chain: seq<string>, hops: seq<Hop>)
    requires AllLive(hops)
    ensures ChainAfter(chain, hops) == chain + seq(|hops|, i requires 0 <= i < |hops| => hops[i].agent)
  {
    if hops != [] {
      var before := hops[..|hops| - 1];
      assert hops[|hops| - 1] in hops;
      ChainIsThePath(chain, before);
    }
  }

  /** So the sender the next agent checks is the one that published. */
  lemma PublisherIsTheSender(chain: seq<string>, publisher: string, agent: string, l: Limits)
    requires l.cyclic == 0 && l.depth == 0
    ensures Admits(Outgoing(chain, publisher), agent, l) <==> l.accepted == [] || publisher in l.accepted
  {
    SenderIsTheLast(chain, publisher, agent, l);
  }

  function Max(a: int, b: int): int {
    if a < b then b else a
  }

  /** With a depth limit everywhere a cascade has at most depth - |chain| hops, and none if
      the chain is already that long. */
  lemma {:induction false} DepthBoundsCascades(chain: seq<string>, hops: seq<Hop>, depth: uint32)
    requires |chain| < TWO32 && Cascade(chain, hops) && AllLive(hops)
    requires forall h :: h in hops ==> 1 <= h.limits.depth <= depth
    ensures |hops| <= Max(0, depth - |chain|)
  {
    if hops != [] {
      var before := hops[..|hops| - 1];
      assert hops[|hops| - 1] in hops;
      DepthBoundsCascades(chain, before, depth);
      ChainGrowsByOne(chain, before);
    }
  }

  /** The bound is met: some cascade has exactly that many hops. */
  lemma {:induction false} DepthBoundIsTight(chain: seq<string>, agent: string, depth: uint32, n: nat)
    requires |chain| + n <= depth
    ensures Cascade(chain, seq(n, _ => Hop(agent, Limits(0, depth, []), false)))
  {
    if n > 0 {
      var hops := seq(n, _ => Hop(agent, Limits(0, depth, []), false));
      assert hops[..n - 1] == seq(n - 1, _ => Hop(agent, Limits(0, depth, []), false));
      DepthBoundIsTight(chain, agent, depth, n - 1);
      ChainGrowsByOne(chain, hops[..n - 1]);
    }
  }

  // The cyclic limits of a finite set of agents, listed without repetition.

  predicate Distinct(agents: seq<string>) {
    forall i, j :: 0 <= i < j < |agents| ==> agents[i] != agents[j]
  }

  /** How often `a` may still occur. */
  function Left(limits: map<string, uint32>, a: string, chain: seq<string>): nat
    requires a in limits
  {
    Max(0, limits[a] - Occurrences(chain, a))
  }

  function Budget(limits: map<string, uint32>, agents: seq<string>, chain: seq<string>): nat
    requires forall a :: a in agents ==> a in limits
  {
    if agents == [] then 0 else Left(limits, agents[0], chain) + Budget(limits, agents[1..], chain)
  }

  lemma {:induction false} HopSpendsOne(limits: map<string, uint32>, agents: seq<string>, chain: seq<string>, a: string)
    requires Distinct(agents) && forall b :: b in agents ==> b in limits
    requires a in agents ==> Left(limits, a, chain) > 0
    ensures Budget(limits, agents, chain + [a]) == Budget(limits, agents, chain) - (if a in agents then 1 else 0)
  {
    assert (chain + [a])[..|chain|] == chain;
    if agents != [] {
      var b, rest := agents[0], agents[1..];
      HopSpendsOne(limits, rest, chain, a);
      assert Occurrences(chain + [a], b) == Occurrences(chain, b) + (if a == b then 1 else 0);
      assert a in agents <==> a == b || a in rest;
    }
  }

  lemma OccursOnceMore(chain: seq<string>, a: string, b: string)
    ensures Occurrences(chain + [a], b) == Occurrences(chain, b) + (if a == b then 1 else 0)
  {
    assert (chain + [a])[..|chain|] == chain;
  }

  /** One admitted hop of an agent with a cyclic limit. */
  lemma OneHopSpends(chain: seq<string>, h: Hop, limits: map<string, uint32>, agents: seq<string>)
    requires Distinct(agents) && forall a :: a in agents ==> a in limits
    requires Admits(chain, h.agent, h.limits) && h.agent in agents && 1 <= h.limits.cyclic <= limits[h.agent]
    requires forall a :: a in agents ==> Occurrences(chain, a) < TWO32
    ensures Budget(limits, agents, Outgoing(chain, h.agent)) == Budget(limits, agents, chain) - 1
    ensures forall a :: a in agents ==> Occurrences(Outgoing(chain, h.agent), a) < TWO32
  {
    LimitsHoldExactly(chain, h.agent, h.limits);
    HopSpendsOne(limits, agents, chain, h.agent);
    forall a | a in agents ensures Occurrences(Outgoing(chain, h.agent), a) < TWO32 {
      OccursOnceMore(chain, h.agent, a);
    }
  }

  /** With a cyclic limit on each of finitely many agents a cascade has at most as many hops
      as the limits leave: the sum of what is left of each. */
  lemma {:induction false} CyclicLimitsBoundCascades(chain: seq<string>, hops: seq<Hop>,
                                                     limits: map<string, uint32>, agents: seq<string>)
    requires Distinct(agents) && forall a :: a in agents ==> a in limits
    requires Cascade(chain, hops) && AllLive(hops)
    requires forall h :: h in hops ==> h.agent in agents && 1 <= h.limits.cyclic <= limits[h.agent]
    requires forall a :: a in agents ==> Occurrences(chain, a) < TWO32
    ensures |hops| + Budget(limits, agents, ChainAfter(chain, hops)) <= Budget(limits, agents, chain)
    ensures forall a :: a in agents ==> Occurrences(ChainAfter(chain, hops), a) < TWO32
  {
    if hops != [] {
      var before, h := hops[..|hops| - 1], hops[|hops| - 1];
      assert h in hops;
      CyclicLimitsBoundCascades(chain, before, limits, agents);
      OneHopSpends(ChainAfter(chain, before), h, limits, agents);
    }
  }

  lemma {:induction false} BudgetWithinLimits(limits: map<string, uint32>, agents: seq<string>, chain: seq<string>)
    requires forall a :: a in agents ==> a in limits
    ensures Budget(limits, agents, chain) <= Budget(limits, agents, [])
  {
    if agents != [] { BudgetWithinLimits(limits, agents[1..], chain); }
  }

  /** The cascades of late emits of one agent. */
  function LateHops(agent: string, l: Limits, n: nat): seq<Hop> {
    if n == 0 then [] else LateHops(agent, l, n - 1) + [Hop(agent, l, true)]
  }

  lemma LateChain(agent: string, l: Limits, n: nat)
    ensures |LateHops(agent, l, n)| == n
    ensures ChainAfter([], LateHops(agent, l, n)) == if n == 0 then [] else [agent]
  {
    if n > 0 {
      LateChain(agent, l, n - 1);
      assert LateHops(agent, l, n)[..n - 1] == LateHops(agent, l, n - 1);
    }
  }

  lemma AdmitsItsOwnLateEmit(agent: string, l: Limits)
    ensures Admits([agent], agent, l) <==>
            l.cyclic != 1 && l.depth != 1 && (l.accepted == [] || agent in l.accepted)
  {
    assert [agent][..0] == [] && Occurrences([agent], agent) == 1;
    assert 1 % TWO32 == 1;
  }

  lemma LateCascadeStep(agent: string, l: Limits, n: nat)
    requires n > 0
    ensures Cascade([], LateHops(agent, l, n)) <==>
            Cascade([], LateHops(agent, l, n - 1)) && Admits(if n == 1 then [] else [agent], agent, l)
  {
    LateChain(agent, l, n - 1);
    LateChain(agent, l, n);
    assert LateHops(agent, l, n)[..n - 1] == LateHops(agent, l, n - 1);
  }

  lemma AdmitsTheFirst(agent: string, l: Limits)
    ensures Admits([], agent, l)
  {
  }

  /** An emit that answers no live message carries only its own agent, so it escapes the
      bounds above: an agent that answers its own emits, each too late, goes on for any
      number of hops from the second on exactly if neither limit is 1 and it accepts itself. */
  lemma {:induction false} LateEmitsEscape(agent: string, l: Limits, n: nat)
    ensures Cascade([], LateHops(agent, l, n)) <==>
            n <= 1 || (l.cyclic != 1 && l.depth != 1 && (l.accepted == [] || agent in l.accepted))
  {
    if n > 0 {
      LateEmitsEscape(agent, l, n - 1);
      LateCascadeStep(agent, l, n);
      AdmitsTheFirst(agent, l);
      AdmitsItsOwnLateEmit(agent, l);
    }
  }
}
