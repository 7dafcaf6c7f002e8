/** `validateReportingDag`: every reference names a known role, and every reports_to chain ends. */
module ReportingDag {
  import opened Options

  type Role = string

  datatype Agent = Agent(reportsTo: Option<Role>, deliversTo: seq<Role>)

  type Agents = map<Role, Agent>

  datatype Verdict =
    | Fine
    | UnknownReportsTo(role: Role, target: Role)
    | UnknownDeliversTo(role: Role, peer: Role)
    | ReportsToCycle(cycle: seq<Role>)

  // ---- the graph --------------------------------------------------------------------------------

  predicate KnownTarget(agents: Agents, role: Role)
    requires role in agents
  {
    agents[role].reportsTo.Some? ==> agents[role].reportsTo.value in agents
  }

  predicate KnownPeers(agents: Agents, role: Role)
    requires role in agents
  {
    forall peer :: peer in agents[role].deliversTo ==> peer in agents
  }

  predicate AllKnown(agents: Agents)
  {
    forall role :: role in agents ==> KnownTarget(agents, role) && KnownPeers(agents, role)
  }

  /** The role `n` steps up from `role`; None past a root. */
  function Up(agents: Agents, role: Role, n: nat): Option<Role>
    requires AllKnown(agents) && role in agents
    ensures Up(agents, role, n).Some? ==> Up(agents, role, n).value in agents
  {
    if n == 0 then Some(role)
    else
      match Up(agents, role, n - 1)
      case None => None
      case Some(r) =>
        assert KnownTarget(agents, r);
        agents[r].reportsTo
  }

  ghost predicate ReachesRoot(agents: Agents, role: Role)
    requires AllKnown(agents) && role in agents
  {
    exists n :: Up(agents, role, n) == None
  }

  /** Each role of `path` reports to the next. */
  predicate Chain(agents: Agents, path: seq<Role>)
  {
    forall i :: 0 <= i < |path| - 1 ==> path[i] in agents && agents[path[i]].reportsTo == Some(path[i + 1])
  }

  predicate Distinct(path: seq<Role>)
  {
    forall i, j :: 0 <= i < j < |path| ==> path[i] != path[j]
  }

  /** A chain of roles that comes back to where it began, passing each role once. */
  predicate IsCycle(agents: Agents, cycle: seq<Role>)
  {
    |cycle| >= 2 && Chain(agents, cycle) && cycle[0] == cycle[|cycle| - 1] && Distinct(cycle[1..])
  }

  lemma {:induction false} UpAdds(agents: Agents, role: Role, m: nat, n: nat)
    requires AllKnown(agents) && role in agents
    ensures Up(agents, role, m + n) ==
            match Up(agents, role, m) case None => None case Some(r) => Up(agents, r, n)
  {
    if n > 0 {
      UpAdds(agents, role, m, n - 1);
      assert m + n - 1 == m + (n - 1);
    }
  }

  lemma {:induction false} ChainIsUp(agents: Agents, path: seq<Role>, i: nat)
    requires AllKnown(agents) && i < |path| && Chain(agents, path) && path[0] in agents
    ensures Up(agents, path[0], i) == Some(path[i])
  {
    if i > 0 {
      ChainIsUp(agents, path, i - 1);
    }
  }

  /** A role that leads back to itself never reaches a root. */
  lemma {:induction false} ReturningNeverEnds(agents: Agents, role: Role, k: nat, n: nat)
    requires AllKnown(agents) && role in agents && k > 0 && Up(agents, role, k) == Some(role)
    ensures Up(agents, role, n).Some?
  {
    if n > k {
      ReturningNeverEnds(agents, role, k, n - k);
      UpAdds(agents, role, k, n - k);
      assert k + (n - k) == n;
    } else {
      UpAdds(agents, role, n, k - n);
      assert n + (k - n) == k;
    }
  }

  lemma CycleNeverEnds(agents: Agents, cycle: seq<Role>)
    requires AllKnown(agents) && IsCycle(agents, cycle)
    ensures cycle[0] in agents && !ReachesRoot(agents, cycle[0])
  {
    var k := |cycle| - 1;
    ChainIsUp(agents, cycle, k);
    forall n: nat
      ensures Up(agents, cycle[0], n).Some?
    {
      ReturningNeverEnds(agents, cycle[0], k, n);
    }
  }

  lemma NextReaches(agents: Agents, role: Role)
    requires AllKnown(agents) && role in agents
    requires agents[role].reportsTo.None? ||
             (agents[role].reportsTo.value in agents && ReachesRoot(agents, agents[role].reportsTo.value))
    ensures ReachesRoot(agents, role)
  {
    assert Up(agents, role, 0) == Some(role);
    assert Up(agents, role, 1) == agents[role].reportsTo;
    if agents[role].reportsTo.Some? {
      var n :| Up(agents, agents[role].reportsTo.value, n) == None;
      UpAdds(agents, role, 1, n);
    }
  }

  // ---- the check --------------------------------------------------------------------------------

  /** The keys of the map, in its order. */
  ghost predicate Lists(order: seq<Role>, agents: Agents)
  {
    Distinct(order) && forall role :: role in order <==> role in agents
  }

  function IndexOf(path: seq<Role>, role: Role): (i: nat)
    requires role in path
    ensures i < |path| && path[i] == role
  {
    if path[0] == role then 0 else 1 + IndexOf(path[1..], role)
  }

  /** Nothing wrong with the references of the roles in `order`. */
  predicate KnownSoFar(order: seq<Role>, agents: Agents)
  {
    forall role :: role in order ==> role in agents && KnownTarget(agents, role) && KnownPeers(agents, role)
  }

  /** The first unknown reference, roles in order, reports_to before delivers_to. */
  method CheckReferences(order: seq<Role>, agents: Agents) returns (r: Verdict)
    requires Lists(order, agents)
    ensures r == Fine <==> AllKnown(agents)
    ensures r.UnknownReportsTo? ==>
              exists i :: 0 <= i < |order| && order[i] == r.role && KnownSoFar(order[..i], agents)
                       && agents[r.role].reportsTo == Some(r.target) && r.target !in agents
    ensures r.UnknownDeliversTo? ==>
              exists i, j :: 0 <= i < |order| && order[i] == r.role && KnownSoFar(order[..i], agents)
                          && KnownTarget(agents, r.role) && 0 <= j < |agents[r.role].deliversTo|
                          && agents[r.role].deliversTo[j] == r.peer && r.peer !in agents
                          && forall k :: 0 <= k < j ==> agents[r.role].deliversTo[k] in agents
    ensures !r.ReportsToCycle?
  {
    for i := 0 to |order|
      invariant KnownSoFar(order[..i], agents)
    {
      var role := order[i];
      var agent := agents[role];
      if agent.reportsTo.Some? && agent.reportsTo.value !in agents {
        assert !KnownTarget(agents, role);
        return UnknownReportsTo(role, agent.reportsTo.value);
      }
      for j := 0 to |agent.deliversTo|
        invariant forall k :: 0 <= k < j ==> agent.deliversTo[k] in agents
      {
        if agent.deliversTo[j] !in agents {
          assert !KnownPeers(agents, role);
          return UnknownDeliversTo(role, agent.deliversTo[j]);
        }
      }
      assert order[..i + 1] == order[..i] + [role];
    }
    assert order[..|order|] == order;
    return Fine;
  }

  /** The walk up from `start`: where it stands, and what it has passed. */
  ghost predicate Walking(agents: Agents, start: Role, chain: seq<Role>, current: Option<Role>, settled: set<Role>)
  {
    && Chain(agents, chain) && Distinct(chain)
    && (forall i :: 0 <= i < |chain| ==> chain[i] in agents && chain[i] !in settled)
    && (current.Some? ==> current.value in agents)
    && (if chain == [] then current == Some(start)
        else chain[0] == start && agents[chain[|chain| - 1]].reportsTo == current)
  }

  ghost predicate AllReach(agents: Agents, settled: set<Role>)
    requires AllKnown(agents)
  {
    forall role :: role in settled ==> role in agents && ReachesRoot(agents, role)
  }

  lemma {:induction false} WalkedReach(agents: Agents, chain: seq<Role>, current: Option<Role>, settled: set<Role>,
                                       i: nat)
    requires AllKnown(agents) && AllReach(agents, settled) && i < |chain| && Chain(agents, chain)
    requires forall k :: 0 <= k < |chain| ==> chain[k] in agents
    requires agents[chain[|chain| - 1]].reportsTo == current && (current.Some? ==> current.value in settled)
    ensures ReachesRoot(agents, chain[i])
    decreases |chain| - i
  {
    if i < |chain| - 1 {
      WalkedReach(agents, chain, current, settled, i + 1);
    }
    NextReaches(agents, chain[i]);
  }

  lemma AllWalkedReach(agents: Agents, start: Role, chain: seq<Role>, current: Option<Role>, settled: set<Role>)
    requires AllKnown(agents) && AllReach(agents, settled) && Walking(agents, start, chain, current, settled)
    requires chain != [] && (current.Some? ==> current.value in settled)
    ensures AllReach(agents, settled + set role | role in chain)
  {
    forall k | 0 <= k < |chain|
      ensures ReachesRoot(agents, chain[k])
    {
      WalkedReach(agents, chain, current, settled, k);
    }
  }

  method CheckChains(order: seq<Role>, agents: Agents) returns (r: Verdict, ghost steps: nat)
    requires Lists(order, agents) && AllKnown(agents)
    ensures r == Fine <==> forall role :: role in agents ==> ReachesRoot(agents, role)
    ensures r != Fine ==> r.ReportsToCycle? && IsCycle(agents, r.cycle)
    ensures r == Fine ==> steps == |agents|
    ensures steps <= |agents| + 1
  {
    hide ReachesRoot, IsCycle, AllReach, Distinct;
    var settled: set<Role> := {};
    steps := 0;
    NoneReaches(agents);
    for i := 0 to |order|
      invariant AllReach(agents, settled) && settled <= agents.Keys && forall k :: 0 <= k < i ==> order[k] in settled
      invariant steps == |settled|
    {
      if order[i] in settled {
        continue;
      }
      var cycle, onPath;
      cycle, onPath, steps := WalkUp(agents, order[i], settled, steps);
      if cycle != [] {
        assert !ReachesRoot(agents, cycle[0]);
        return ReportsToCycle(cycle), steps;
      }
      settled := settled + onPath;
    }
    assert settled == agents.Keys;
    AllReachIs(agents, settled);
    return Fine, steps;
  }

  /** One walk: up from `start` until it ends, meets a settled role, or comes back to where it was. */
  method WalkUp(agents: Agents, start: Role, settled: set<Role>, ghost before: nat)
    returns (cycle: seq<Role>, onPath: set<Role>, ghost steps: nat)
    requires AllKnown(agents) && AllReach(agents, settled) && settled <= agents.Keys && before == |settled|
    requires start in agents && start !in settled
    ensures cycle != [] ==> IsCycle(agents, cycle) && cycle[0] in agents && !ReachesRoot(agents, cycle[0])
    ensures cycle != [] ==> steps <= |agents| + 1
    ensures cycle == [] ==> start in onPath && onPath <= agents.Keys && AllReach(agents, settled + onPath)
    ensures cycle == [] ==> steps == |settled + onPath| <= |agents|
  {
    hide ReachesRoot, IsCycle, Chain, Walking, AllReach, Distinct, Counted, AllKnown, KnownTarget, KnownPeers;
    var chain: seq<Role>, current := [], Some(start);
    onPath, steps := {}, before;
    WalkBegins(agents, start, settled);
    CountBegins(agents, settled, steps);
    while current.Some? && current.value !in settled
      invariant Walking(agents, start, chain, current, settled)
      invariant Counted(agents, settled, onPath, chain, steps)
      invariant if chain == [] then current == Some(start) else start in onPath
      decreases |agents| + 1 - steps
    {
      CountedIsLinear(agents, settled, onPath, chain, steps);
      if current.value in onPath {
        cycle := chain[IndexOf(chain, current.value)..] + [current.value];
        CycleFound(agents, start, chain, current, settled);
        return cycle, onPath, steps + 1;
      }
      WalkOn(agents, start, chain, current, settled);
      CountOn(agents, settled, onPath, chain, steps, current.value);
      steps := steps + 1;
      onPath := onPath + {current.value};
      chain := chain + [current.value];
      current := agents[current.value].reportsTo;
    }
    AllWalkedReach(agents, start, chain, current, settled);
    CountedIsLinear(agents, settled, onPath, chain, steps);
    cycle := [];
  }

  /** `onPath` is the chain as a set, apart from the settled roles; each step settled a role or passed one. */
  predicate Counted(agents: Agents, settled: set<Role>, onPath: set<Role>, chain: seq<Role>, steps: nat)
  {
    && onPath == (set role | role in chain) && |onPath| == |chain|
    && onPath <= agents.Keys && settled <= agents.Keys && settled !! onPath
    && steps == |settled| + |chain|
  }

  lemma CountBegins(agents: Agents, settled: set<Role>, steps: nat)
    requires settled <= agents.Keys && steps == |settled|
    ensures Counted(agents, settled, {}, [], steps)
  {
  }

  lemma CountOn(agents: Agents, settled: set<Role>, onPath: set<Role>, chain: seq<Role>, steps: nat, role: Role)
    requires Counted(agents, settled, onPath, chain, steps) && role in agents && role !in onPath && role !in settled
    ensures Counted(agents, settled, onPath + {role}, chain + [role], steps + 1)
  {
  }

  lemma CountedIsLinear(agents: Agents, settled: set<Role>, onPath: set<Role>, chain: seq<Role>, steps: nat)
    requires Counted(agents, settled, onPath, chain, steps)
    ensures onPath == (set role | role in chain) && settled + onPath <= agents.Keys
    ensures steps == |settled + onPath| <= |agents|
  {
    Together(settled, onPath, agents.Keys);
  }

  lemma NoneReaches(agents: Agents)
    requires AllKnown(agents)
    ensures AllReach(agents, {})
  {
  }

  lemma AllReachIs(agents: Agents, settled: set<Role>)
    requires AllKnown(agents) && AllReach(agents, settled)
    ensures forall role :: role in settled ==> role in agents && ReachesRoot(agents, role)
  {
  }

  lemma WalkBegins(agents: Agents, start: Role, settled: set<Role>)
    requires start in agents
    ensures Walking(agents, start, [], Some(start), settled)
  {
  }

  lemma WalkOn(agents: Agents, start: Role, chain: seq<Role>, current: Option<Role>, settled: set<Role>)
    requires AllKnown(agents) && Walking(agents, start, chain, current, settled)
    requires current.Some? && current.value !in settled && current.value !in chain
    ensures current.value in agents
    ensures Walking(agents, start, chain + [current.value], agents[current.value].reportsTo, settled)
  {
    assert KnownTarget(agents, current.value);
  }

  lemma CycleFound(agents: Agents, start: Role, chain: seq<Role>, current: Option<Role>, settled: set<Role>)
    requires AllKnown(agents) && Walking(agents, start, chain, current, settled)
    requires current.Some? && current.value in chain
    ensures
      var cycle := chain[IndexOf(chain, current.value)..] + [current.value];
      IsCycle(agents, cycle) && cycle[0] in agents && !ReachesRoot(agents, cycle[0])
  {
    CycleNeverEnds(agents, chain[IndexOf(chain, current.value)..] + [current.value]);
  }

  lemma Together(a: set<Role>, b: set<Role>, all: set<Role>)
    requires a !! b && a <= all && b <= all
    ensures |a + b| == |a| + |b| <= |all|
  {
    assert |a + b| == |a| + |b|;
    assert all == (a + b) + (all - (a + b));
  }

  /** It returns normally exactly when all references are known and every chain reaches a root; an error
      names a real unknown reference or a real cycle; and the walks together take a linear number of steps. */
  method ValidateReportingDag(order: seq<Role>, agents: Agents) returns (r: Verdict, ghost steps: nat)
    requires Lists(order, agents)
    ensures r == Fine <==> AllKnown(agents) && forall role :: role in agents ==> ReachesRoot(agents, role)
    ensures r.UnknownReportsTo? ==>
              r.role in agents && agents[r.role].reportsTo == Some(r.target) && r.target !in agents
    ensures r.UnknownDeliversTo? ==> r.role in agents && r.peer in agents[r.role].deliversTo && r.peer !in agents
    ensures r.ReportsToCycle? ==> AllKnown(agents) && IsCycle(agents, r.cycle)
    ensures steps <= |agents| + 1 && (r == Fine ==> steps == |agents|)
  {
    r := CheckReferences(order, agents);
    steps := 0;
    if r == Fine {
      r, steps := CheckChains(order, agents);
    }
  }

  /** With known references, a graph has a cycle if and only if some chain never ends. */
  lemma CyclesAreEndless(agents: Agents)
    requires AllKnown(agents)
    ensures (exists cycle :: IsCycle(agents, cycle)) <==> (exists role :: role in agents && !ReachesRoot(agents, role))
  {
    if cycle :| IsCycle(agents, cycle) {
      CycleNeverEnds(agents, cycle);
    }
    if role :| role in agents && !ReachesRoot(agents, role) {
      EndlessHasCycle(agents, role, |agents|);
    }
  }

  /** The first `n` + 1 roles of a chain that does not end. */
  function Climb(agents: Agents, role: Role, n: nat): (path: seq<Role>)
    requires AllKnown(agents) && role in agents && forall m: nat :: m <= n ==> Up(agents, role, m).Some?
    ensures |path| == n + 1 && forall m :: 0 <= m <= n ==> path[m] == Up(agents, role, m).value
  {
    seq(n + 1, m requires 0 <= m <= n => Up(agents, role, m).value)
  }

  lemma EndlessHasCycle(agents: Agents, role: Role, n: nat)
    requires AllKnown(agents) && role in agents && !ReachesRoot(agents, role) && n == |agents|
    ensures exists cycle :: IsCycle(agents, cycle)
  {
    var path := Climb(agents, role, n);
    assert Chain(agents, path);
    hide Distinct, ReachesRoot, IsCycle;
    TooLong(path, agents.Keys);
    var i, j := FirstRepeat(path, |path|);
    RepeatIsCycle(agents, path, i, j);
  }

  lemma RepeatIsCycle(agents: Agents, path: seq<Role>, i: nat, j: nat)
    requires Chain(agents, path) && i < j < |path| && path[i] == path[j] && Distinct(path[..j])
    ensures IsCycle(agents, path[i..j + 1])
  {
    var cycle := path[i..j + 1];
    assert forall k :: 0 <= k < |cycle[1..]| ==> cycle[1..][k] == path[i + 1 + k];
    forall k, l | 0 <= k < l < |cycle[1..]|
      ensures cycle[1..][k] != cycle[1..][l]
    {
      assert path[..j][i + 1 + k] == path[i + 1 + k];
      assert path[..j][i] == path[i];
      assert i + 1 + l < j ==> path[..j][i + 1 + l] == path[i + 1 + l];
    }
  }

  /** A path longer than the set it stays in passes some role twice ... */
  lemma TooLong(path: seq<Role>, all: set<Role>)
    requires |all| < |path| && forall k :: 0 <= k < |path| ==> path[k] in all
    ensures !Distinct(path[..|path|])
  {
    assert path[..|path|] == path;
    if Distinct(path) {
      DistinctFits(path, all);
    }
  }

  /** ... and there is a first time it does. */
  lemma {:induction false} FirstRepeat(path: seq<Role>, n: nat) returns (i: nat, j: nat)
    requires n <= |path| && !Distinct(path[..n])
    ensures i < j < n && path[i] == path[j] && Distinct(path[..j])
  {
    if Distinct(path[..n - 1]) {
      i :| 0 <= i < n - 1 && path[i] == path[n - 1];
      j := n - 1;
    } else {
      i, j := FirstRepeat(path, n - 1);
    }
  }

  lemma {:induction false} DistinctFits(path: seq<Role>, all: set<Role>)
    requires Distinct(path) && forall k :: 0 <= k < |path| ==> path[k] in all
    ensures |path| <= |all|
  {
    if path != [] {
      DistinctFits(path[1..], all - {path[0]});
    }
  }
}
