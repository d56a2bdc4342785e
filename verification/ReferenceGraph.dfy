/** The must-reach analysis over execution edges. */
module ReferenceGraph {
  import opened FlowModel
  import opened Values

  /** The analysis result for one step: the ids on every execution path to it; nothing for
      a step no path reaches. */
  ghost predicate Exact(steps: seq<Step>, index: nat, safe: set<string>)
  {
    if Reachable(steps, index) then forall id :: id in safe <==> OnEveryPath(steps, id, index)
    else safe == {}
  }

  // ---------- paths ----------

  lemma PathIsIncreasing(steps: seq<Step>, path: seq<nat>, i: nat, j: nat)
    requires IsPath(steps, path) && i < j < |path|
    ensures path[i] < path[j]
    decreases j
  {
    assert Edge(steps, path[j - 1], path[j]);
    if i < j - 1 {
      PathIsIncreasing(steps, path, i, j - 1);
    }
  }

  lemma PathPrefix(steps: seq<Step>, path: seq<nat>)
    requires IsPath(steps, path) && |path| > 1
    ensures var n := |path| - 1;
            && IsPath(steps, path[..n])
            && Edge(steps, path[n - 1], path[n])
            && Passed(steps, path) == Passed(steps, path[..n]) + {steps[path[n - 1]].id}
  {
    var n := |path| - 1;
    var front := path[..n];
    assert Edge(steps, path[n - 1], path[n]);
    forall k | 0 <= k < |front| - 1
      ensures Edge(steps, front[k], front[k + 1])
    {
      assert Edge(steps, path[k], path[k + 1]);
    }
  }

  lemma PathExtend(steps: seq<Step>, path: seq<nat>, to: nat)
    requires IsPath(steps, path) && Edge(steps, path[|path| - 1], to)
    ensures to < |steps|
    ensures IsPath(steps, path + [to])
    ensures Passed(steps, path + [to]) == Passed(steps, path) + {steps[path[|path| - 1]].id}
  {
    var longer := path + [to];
    forall k | 0 <= k < |longer| - 1
      ensures Edge(steps, longer[k], longer[k + 1])
    {
      if k < |path| - 1 {
        assert Edge(steps, path[k], path[k + 1]);
      }
    }
    PathPrefix(steps, longer);
    assert longer[..|path|] == path;
  }

  lemma FirstIsReached(steps: seq<Step>)
    requires steps != []
    ensures Reachable(steps, 0)
  {
    var path: seq<nat> := [0];
    assert IsPath(steps, path) && path[|path| - 1] == 0;
  }

  lemma ReachedByEdge(steps: seq<Step>, from: nat, to: nat)
    requires Reachable(steps, from) && Edge(steps, from, to)
    ensures Reachable(steps, to)
  {
    var path :| IsPath(steps, path) && path[|path| - 1] == from;
    PathExtend(steps, path, to);
    var longer := path + [to];
    assert longer[|longer| - 1] == to;
  }

  lemma LastEdge(steps: seq<Step>, to: nat) returns (from: nat)
    requires Reachable(steps, to) && to != 0
    ensures Reachable(steps, from) && Edge(steps, from, to) && from < to
  {
    var path :| IsPath(steps, path) && path[|path| - 1] == to;
    PathPrefix(steps, path);
    var front := path[..|path| - 1];
    from := front[|front| - 1];
    assert IsPath(steps, front);
  }

  // ---------- the sets that flow into a step ----------

  /** The set a predecessor contributes. */
  ghost predicate Contributes(steps: seq<Step>, result: seq<set<string>>, from: nat, to: nat, flow: set<string>)
  {
    && from < |result| && from < |steps|
    && Edge(steps, from, to) && Reachable(steps, from)
    && flow == result[from] + {steps[from].id}
  }

  ghost predicate Justified(steps: seq<Step>, result: seq<set<string>>, to: nat, flow: set<string>)
  {
    (to == 0 && flow == {}) || exists from: nat :: Contributes(steps, result, from, to, flow)
  }

  /** The sets collected for a step are exactly the contributions of the reachable
      predecessors processed so far, and the empty set for the first step. */
  ghost predicate Collected(steps: seq<Step>, result: seq<set<string>>, to: nat, flows: seq<set<string>>)
  {
    && (forall k :: 0 <= k < |flows| ==> Justified(steps, result, to, flows[k]))
    && (to == 0 ==> {} in flows)
    && (forall from: nat, flow :: Contributes(steps, result, from, to, flow) ==> flow in flows)
  }

  ghost predicate Intersection(flows: seq<set<string>>, safe: set<string>)
  {
    if flows == [] then safe == {}
    else forall id :: id in safe <==> forall k :: 0 <= k < |flows| ==> id in flows[k]
  }

  /** A step is reached exactly when something flows into it. */
  lemma FlowsReach(steps: seq<Step>, result: seq<set<string>>, to: nat, flows: seq<set<string>>)
    requires to < |steps| && |result| == to
    requires Collected(steps, result, to, flows)
    ensures flows != [] <==> Reachable(steps, to)
  {
    if flows != [] && to != 0 {
      assert Justified(steps, result, to, flows[0]);
      var from: nat :| Contributes(steps, result, from, to, flows[0]);
      ReachedByEdge(steps, from, to);
    }
    if to == 0 {
      FirstIsReached(steps);
    } else if Reachable(steps, to) {
      var from := LastEdge(steps, to);
      assert Contributes(steps, result, from, to, result[from] + {steps[from].id});
    }
  }

  /** The intersection of the collected sets is exact when the earlier results are. */
  lemma IntersectionIsExact(steps: seq<Step>, result: seq<set<string>>, to: nat, flows: seq<set<string>>, safe: set<string>)
    requires to < |steps| && |result| == to
    requires forall i :: 0 <= i < to ==> Exact(steps, i, result[i])
    requires Collected(steps, result, to, flows) && Intersection(flows, safe)
    ensures Exact(steps, to, safe)
  {
    FlowsReach(steps, result, to, flows);
    if Reachable(steps, to) {
      forall id
        ensures id in safe <==> OnEveryPath(steps, id, to)
      {
        if id in safe {
          SafeIsSound(steps, result, to, flows, id);
        } else {
          SafeIsComplete(steps, result, to, flows, id);
        }
      }
    }
  }

  lemma SafeIsSound(steps: seq<Step>, result: seq<set<string>>, to: nat, flows: seq<set<string>>, id: string)
    requires to < |steps| && |result| == to
    requires forall i :: 0 <= i < to ==> Exact(steps, i, result[i])
    requires Collected(steps, result, to, flows)
    requires forall k :: 0 <= k < |flows| ==> id in flows[k]
    ensures OnEveryPath(steps, id, to)
  {
    forall path | IsPath(steps, path) && path[|path| - 1] == to
      ensures id in Passed(steps, path)
    {
      if |path| == 1 {
        assert path[0] == 0;
      } else {
        PathPrefix(steps, path);
        var front := path[..|path| - 1];
        var from := front[|front| - 1];
        FlowHolds(steps, result, from, to, flows, id, front);
      }
    }
  }

  lemma FlowHolds(steps: seq<Step>, result: seq<set<string>>, from: nat, to: nat, flows: seq<set<string>>, id: string, front: seq<nat>)
    requires from < to < |steps| && |result| == to
    requires Exact(steps, from, result[from]) && Edge(steps, from, to)
    requires Collected(steps, result, to, flows)
    requires forall k :: 0 <= k < |flows| ==> id in flows[k]
    requires IsPath(steps, front) && front[|front| - 1] == from
    ensures id in Passed(steps, front) + {steps[from].id}
  {
    assert Reachable(steps, from);
    assert Contributes(steps, result, from, to, result[from] + {steps[from].id});
  }

  lemma SafeIsComplete(steps: seq<Step>, result: seq<set<string>>, to: nat, flows: seq<set<string>>, id: string)
    requires to < |steps| && |result| == to
    requires forall i :: 0 <= i < to ==> Exact(steps, i, result[i])
    requires Collected(steps, result, to, flows)
    requires exists k :: 0 <= k < |flows| && id !in flows[k]
    ensures !OnEveryPath(steps, id, to)
  {
    var k :| 0 <= k < |flows| && id !in flows[k];
    assert Justified(steps, result, to, flows[k]);
    if to == 0 && flows[k] == {} {
      var path: seq<nat> := [0];
      assert IsPath(steps, path) && path[|path| - 1] == to && id !in Passed(steps, path);
    } else {
      var from: nat :| Contributes(steps, result, from, to, flows[k]);
      assert Exact(steps, from, result[from]);
      AvoidedLater(steps, id, from, to);
    }
  }

  lemma AvoidedLater(steps: seq<Step>, id: string, from: nat, to: nat)
    requires from < |steps| && Edge(steps, from, to)
    requires !OnEveryPath(steps, id, from) && id != steps[from].id
    ensures !OnEveryPath(steps, id, to)
  {
    var path := AvoidingPath(steps, id, from);
    PathExtend(steps, path, to);
    var longer := path + [to];
    assert longer[|longer| - 1] == to && id !in Passed(steps, longer);
  }

  lemma AvoidingPath(steps: seq<Step>, id: string, index: nat) returns (path: seq<nat>)
    requires !OnEveryPath(steps, id, index)
    ensures IsPath(steps, path) && path[|path| - 1] == index && id !in Passed(steps, path)
  {
    path :| IsPath(steps, path) && path[|path| - 1] == index && id !in Passed(steps, path);
  }

  // ---------- the analysis ----------

  /** The ids that certainly finished before each step, computed in one forward pass. */
  method GuaranteedUpstream(steps: seq<Step>) returns (result: seq<set<string>>)
    ensures |result| == |steps|
    ensures forall i :: 0 <= i < |steps| ==> Exact(steps, i, result[i])
  {
    var incoming: array<seq<set<string>>> := new seq<set<string>>[|steps|](_ => []);
    if |steps| > 0 {
      incoming[0] := [{}];
    }
    result := [];
    for index := 0 to |steps|
      invariant |result| == index
      invariant forall i :: 0 <= i < index ==> Exact(steps, i, result[i])
      invariant forall to :: index <= to < |steps| ==> Collected(steps, result, to, incoming[to])
    {
      label turn:
      var flows := incoming[index];
      var safe := Intersect(flows);
      IntersectionIsExact(steps, result, index, flows, safe);
      FlowsReach(steps, result, index, flows);
      Push(steps, index, flows, safe, incoming);
      forall to | index < to < |steps|
        ensures Collected(steps, result + [safe], to, incoming[to])
      {
        if flows != [] {
          ContributionsArrive(steps, result, index, safe, to, old@turn(incoming[to]));
        } else {
          NothingArrives(steps, result, index, safe, to, old@turn(incoming[to]));
        }
      }
      ghost var before := result;
      result := result + [safe];
      forall i | 0 <= i < |result|
        ensures Exact(steps, i, result[i])
      {
        if i < index {
          assert result[i] == before[i];
        }
      }
    }
  }

  /** Hands the set of a reached step, with the step's own id, to its targets ahead. */
  method Push(steps: seq<Step>, index: nat, flows: seq<set<string>>, safe: set<string>, incoming: array<seq<set<string>>>)
    requires index < |steps| == incoming.Length
    modifies incoming
    ensures forall to :: index < to < |steps| ==>
              incoming[to] == old(incoming[to]) +
                (if flows == [] then []
                 else Copies(steps, index, Targets(steps, index), to, safe + {steps[index].id}))
  {
    if flows == [] {
      return;
    }
    var flow := safe + {steps[index].id};
    var targets := Targets(steps, index);
    for k := 0 to |targets|
      invariant forall to :: index < to < |steps| ==>
                  incoming[to] == old(incoming[to]) + Copies(steps, index, targets[..k], to, flow)
    {
      assert targets[..k + 1][..k] == targets[..k];
      var next := Ahead(steps, index, targets[k]);
      if next.Some? {
        incoming[next.value] := incoming[next.value] + [flow];
      }
    }
    assert targets[..|targets|] == targets;
  }

  /** The copies of a flow that the targets push to one step. */
  ghost function Copies(steps: seq<Step>, from: nat, targets: seq<string>, to: nat, flow: set<string>): seq<set<string>>
  {
    if targets == [] then []
    else
      Copies(steps, from, targets[..|targets| - 1], to, flow) +
      (if Ahead(steps, from, targets[|targets| - 1]) == Some(to) then [flow] else [])
  }

  lemma {:induction false} CopiesMean(steps: seq<Step>, from: nat, targets: seq<string>, to: nat, flow: set<string>)
    ensures forall k :: 0 <= k < |Copies(steps, from, targets, to, flow)| ==> Copies(steps, from, targets, to, flow)[k] == flow
    ensures Copies(steps, from, targets, to, flow) != [] <==>
            exists k :: 0 <= k < |targets| && Ahead(steps, from, targets[k]) == Some(to)
  {
    if targets != [] {
      var n := |targets| - 1;
      CopiesMean(steps, from, targets[..n], to, flow);
      assert forall k :: 0 <= k < n ==> targets[..n][k] == targets[k];
    }
  }

  /** Starts from the first set and drops every id another set lacks. */
  method Intersect(flows: seq<set<string>>) returns (safe: set<string>)
    ensures Intersection(flows, safe)
  {
    safe := if flows == [] then {} else flows[0];
    for k := 0 to |flows|
      invariant flows == [] ==> safe == {}
      invariant flows != [] ==> safe <= flows[0]
      invariant flows != [] ==> forall id :: id in safe <==> id in flows[0] && forall j :: 0 <= j < k ==> id in flows[j]
    {
      safe := set id | id in safe && id in flows[k];
    }
  }

  /** A further result changes no contribution of an earlier step. */
  lemma ContributesLonger(steps: seq<Step>, result: seq<set<string>>, safe: set<string>, to: nat, flow: set<string>)
    ensures Justified(steps, result, to, flow) ==> Justified(steps, result + [safe], to, flow)
    ensures forall from: nat :: from < |result| ==>
              (Contributes(steps, result + [safe], from, to, flow) <==> Contributes(steps, result, from, to, flow))
  {
    var longer := result + [safe];
    forall from: nat | from < |result|
      ensures Contributes(steps, longer, from, to, flow) <==> Contributes(steps, result, from, to, flow)
    {
      assert longer[from] == result[from];
    }
    if Justified(steps, result, to, flow) && !(to == 0 && flow == {}) {
      var from: nat :| Contributes(steps, result, from, to, flow);
      assert Contributes(steps, longer, from, to, flow);
    }
  }

  lemma ContributionsArrive(steps: seq<Step>, result: seq<set<string>>, index: nat, safe: set<string>, to: nat, flows: seq<set<string>>)
    requires index < to < |steps| && |result| == index
    requires Reachable(steps, index)
    requires Collected(steps, result, to, flows)
    ensures Collected(steps, result + [safe], to,
                      flows + Copies(steps, index, Targets(steps, index), to, safe + {steps[index].id}))
  {
    var longer := result + [safe];
    var flow := safe + {steps[index].id};
    var copies := Copies(steps, index, Targets(steps, index), to, flow);
    var all := flows + copies;
    CopiesMean(steps, index, Targets(steps, index), to, flow);
    assert copies != [] <==> Edge(steps, index, to);
    assert longer[index] == safe;
    assert Edge(steps, index, to) ==> Contributes(steps, longer, index, to, flow);
    forall k | 0 <= k < |all|
      ensures Justified(steps, longer, to, all[k])
    {
      if k < |flows| {
        ContributesLonger(steps, result, safe, to, flows[k]);
      } else {
        assert all[k] == copies[k - |flows|];
      }
    }
    forall from: nat, other | Contributes(steps, longer, from, to, other)
      ensures other in all
    {
      ContributesLonger(steps, result, safe, to, other);
      if from == index {
        assert copies != [] && copies[0] == other;
      }
    }
  }

  lemma NothingArrives(steps: seq<Step>, result: seq<set<string>>, index: nat, safe: set<string>, to: nat, flows: seq<set<string>>)
    requires index < to < |steps| && |result| == index
    requires !Reachable(steps, index)
    requires Collected(steps, result, to, flows)
    ensures Collected(steps, result + [safe], to, flows)
  {
    var longer := result + [safe];
    forall k | 0 <= k < |flows|
      ensures Justified(steps, longer, to, flows[k])
    {
      ContributesLonger(steps, result, safe, to, flows[k]);
    }
    forall from: nat, other | Contributes(steps, longer, from, to, other)
      ensures other in flows
    {
      assert from != index;
      ContributesLonger(steps, result, safe, to, other);
    }
  }
}
