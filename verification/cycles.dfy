/**
 * The dependency graph of a job description: the iterative three-state search either names a
 * position that lies on a cycle, or the graph has a topological rank.
 */
module Cycles {
  import opened Base

  /** For every position, the positions it depends on. */
  type Graph = seq<seq<int>>

  datatype Visit = Unseen | OnStack | Done

  ghost predicate InRange(g: Graph) {
    forall u, k :: 0 <= u < |g| && 0 <= k < |g[u]| ==> 0 <= g[u][k] < |g|
  }

  ghost predicate IsWalk(g: Graph, w: seq<int>) {
    && 0 < |w|
    && (forall i :: 0 <= i < |w| ==> 0 <= w[i] < |g|)
    && (forall i :: 0 <= i < |w| - 1 ==> w[i + 1] in g[w[i]])
  }

  ghost predicate OnCycle(g: Graph, position: int) {
    exists w :: IsWalk(g, w) && 2 <= |w| && w[0] == position == w[|w| - 1]
  }

  ghost predicate IsRank(g: Graph, rank: seq<int>) {
    && |rank| == |g|
    && InRange(g)
    && (forall u :: 0 <= u < |g| ==> 0 <= rank[u])
    && (forall u, k :: 0 <= u < |g| && 0 <= k < |g[u]| ==> rank[g[u][k]] < rank[u])
  }

  /** Along a walk a rank strictly falls. */
  lemma {:induction false} RankFallsAlongWalk(g: Graph, rank: seq<int>, w: seq<int>)
    requires IsRank(g, rank) && IsWalk(g, w)
    ensures rank[w[|w| - 1]] + |w| - 1 <= rank[w[0]]
  {
    if 1 < |w| {
      var init := w[..|w| - 1];
      RankFallsAlongWalk(g, rank, init);
      assert w[|w| - 1] in g[w[|w| - 2]];
    }
  }

  lemma CycleExcludesRank(g: Graph, position: int, rank: seq<int>)
    requires OnCycle(g, position)
    ensures !IsRank(g, rank)
  {
    if IsRank(g, rank) {
      var w :| IsWalk(g, w) && 2 <= |w| && w[0] == position == w[|w| - 1];
      RankFallsAlongWalk(g, rank, w);
    }
  }

  // ----- What the search keeps. `path` holds the positions on the stack, bottom first, and
  // ----- `next` the edge each of them is to follow next.

  ghost function UnseenPositions(states: seq<Visit>): set<int> {
    set u | 0 <= u < |states| && states[u] == Unseen
  }

  /** Edges still to follow from the stack, plus one step back for each position on it. */
  ghost function Work(g: Graph, path: seq<int>, next: seq<int>): nat
    requires |path| == |next|
    requires forall i :: 0 <= i < |path| ==> 0 <= path[i] < |g| && 0 <= next[i] <= |g[path[i]]|
  {
    if path == [] then 0
    else
      var top := |path| - 1;
      Work(g, path[..top], next[..top]) + |g[path[top]]| - next[top] + 1
  }

  /** The positions marked `OnStack` are those on the path, each of them once. */
  ghost predicate PathIsMarked(path: seq<int>, states: seq<Visit>) {
    && (forall i :: 0 <= i < |path| ==> 0 <= path[i] < |states| && states[path[i]] == OnStack)
    && (forall i, j :: 0 <= i < j < |path| ==> path[i] != path[j])
    && (forall u :: 0 <= u < |states| && states[u] == OnStack ==> u in path)
  }

  ghost predicate LeadsUp(g: Graph, path: seq<int>, next: seq<int>, i: int)
    requires 0 <= i < |path| - 1 && |path| == |next| && 0 <= path[i] < |g|
  {
    0 < next[i] <= |g[path[i]]| && g[path[i]][next[i] - 1] == path[i + 1]
  }

  /** Each position's last followed edge leads to the position above it. */
  ghost predicate PathIsWalk(g: Graph, path: seq<int>, next: seq<int>) {
    && |path| == |next|
    && (forall i :: 0 <= i < |path| ==> 0 <= path[i] < |g| && 0 <= next[i] <= |g[path[i]]|)
    && (forall i :: 0 <= i < |path| - 1 ==> LeadsUp(g, path, next, i))
  }

  /** The edges of the `i`-th position whose exploration is over. */
  ghost function Followed(path: seq<int>, next: seq<int>, i: int): int
    requires 0 <= i < |path| == |next|
  {
    if i < |path| - 1 then next[i] - 1 else next[i]
  }

  ghost predicate FollowedEdgesDone(g: Graph, path: seq<int>, next: seq<int>, states: seq<Visit>)
    requires InRange(g) && |states| == |g| && PathIsWalk(g, path, next)
  {
    forall i, k :: 0 <= i < |path| && 0 <= k < Followed(path, next, i) ==> states[g[path[i]][k]] == Done
  }

  /** Done positions depend on done positions of a smaller rank. */
  ghost predicate DoneIsRanked(g: Graph, states: seq<Visit>, rank: seq<int>, finished: int)
    requires InRange(g) && |states| == |rank| == |g|
  {
    && 0 <= finished
    && (forall u :: 0 <= u < |g| ==> 0 <= rank[u])
    && (forall u :: 0 <= u < |g| && states[u] == Done ==> rank[u] < finished)
    && (forall u, k :: 0 <= u < |g| && states[u] == Done && 0 <= k < |g[u]| ==>
          states[g[u][k]] == Done && rank[g[u][k]] < rank[u])
  }

  /** All of the above at once: the state the search is in between two steps. */
  ghost predicate Searching(g: Graph, path: seq<int>, next: seq<int>, states: seq<Visit>,
                            rank: seq<int>, finished: int) {
    && InRange(g) && |states| == |rank| == |g|
    && PathIsWalk(g, path, next)
    && PathIsMarked(path, states)
    && FollowedEdgesDone(g, path, next, states)
    && DoneIsRanked(g, states, rank, finished)
  }

  lemma PathClosesCycle(g: Graph, path: seq<int>, next: seq<int>, i: int)
    requires PathIsWalk(g, path, next) && 0 <= i < |path|
    requires path[i] in g[path[|path| - 1]]
    ensures OnCycle(g, path[i])
  {
    var w := path[i..] + [path[i]];
    forall j | 0 <= j < |w| - 1
      ensures w[j + 1] in g[w[j]]
    {
      if j < |w| - 2 {
        assert LeadsUp(g, path, next, i + j);
      }
    }
    assert IsWalk(g, w);
  }

  lemma FirstStep(g: Graph, states: seq<Visit>, start: int, rank: seq<int>, finished: int)
    requires Searching(g, [], [], states, rank, finished)
    requires 0 <= start < |g| && states[start] == Unseen
    ensures Searching(g, [start], [0], states[start := OnStack], rank, finished)
  {
  }

  /** One step leaves the search in order, with an unseen position fewer or less work on the stack. */
  ghost predicate Advances(g: Graph, path: seq<int>, next: seq<int>, states: seq<Visit>,
                           path': seq<int>, next': seq<int>, states': seq<Visit>, rank': seq<int>, finished': int)
    requires PathIsWalk(g, path, next)
  {
    && Searching(g, path', next', states', rank', finished')
    && (|| UnseenPositions(states') < UnseenPositions(states)
        || (UnseenPositions(states') == UnseenPositions(states) && Work(g, path', next') < Work(g, path, next)))
  }

  lemma StepOverDone(g: Graph, path: seq<int>, next: seq<int>, states: seq<Visit>, rank: seq<int>, finished: int,
                     next': seq<int>)
    requires Searching(g, path, next, states, rank, finished) && path != []
    requires var u, e := path[|path| - 1], next[|path| - 1]; e < |g[u]| && states[g[u][e]] == Done
    requires next' == next[|path| - 1 := next[|path| - 1] + 1]
    ensures Advances(g, path, next, states, path, next', states, rank, finished)
  {
    var top := |path| - 1;
    assert next'[..top] == next[..top];
    forall i | 0 <= i < top ensures LeadsUp(g, path, next', i) {
      assert LeadsUp(g, path, next, i);
    }
    forall i, k | 0 <= i < |path| && 0 <= k < Followed(path, next', i)
      ensures states[g[path[i]][k]] == Done
    {
      assert i < top ==> Followed(path, next', i) == Followed(path, next, i);
    }
  }

  lemma PushMarks(path: seq<int>, dependency: int, states: seq<Visit>)
    requires PathIsMarked(path, states)
    requires 0 <= dependency < |states| && states[dependency] == Unseen
    ensures PathIsMarked(path + [dependency], states[dependency := OnStack])
    ensures UnseenPositions(states[dependency := OnStack]) < UnseenPositions(states)
  {
    assert dependency in UnseenPositions(states);
    assert dependency !in UnseenPositions(states[dependency := OnStack]);
  }

  lemma PushWalks(g: Graph, path: seq<int>, next: seq<int>, states: seq<Visit>)
    requires InRange(g) && |states| == |g| && PathIsWalk(g, path, next) && FollowedEdgesDone(g, path, next, states)
    requires path != [] && next[|path| - 1] < |g[path[|path| - 1]]|
    ensures var dependency := g[path[|path| - 1]][next[|path| - 1]];
            var path', next' := path + [dependency], next[|path| - 1 := next[|path| - 1] + 1] + [0];
            && PathIsWalk(g, path', next')
            && (states[dependency] == Unseen ==> FollowedEdgesDone(g, path', next', states[dependency := OnStack]))
  {
    var top := |path| - 1;
    var path', next' := path + [g[path[top]][next[top]]], next[top := next[top] + 1] + [0];
    forall i | 0 <= i < |path'| - 1
      ensures LeadsUp(g, path', next', i)
    {
      assert i < top ==> LeadsUp(g, path, next, i);
    }
    forall i, k | 0 <= i < |path'| && 0 <= k < Followed(path', next', i)
      ensures states[g[path'[i]][k]] == Done
    {
      assert i < |path| && Followed(path', next', i) == Followed(path, next, i);
    }
  }

  lemma StepIntoUnseen(g: Graph, path: seq<int>, next: seq<int>, states: seq<Visit>, rank: seq<int>, finished: int,
                       path': seq<int>, next': seq<int>, states': seq<Visit>)
    requires Searching(g, path, next, states, rank, finished) && path != []
    requires var u, e := path[|path| - 1], next[|path| - 1]; e < |g[u]| && states[g[u][e]] == Unseen
    requires var dependency := g[path[|path| - 1]][next[|path| - 1]];
             path' == path + [dependency] && states' == states[dependency := OnStack]
    requires next' == next[|path| - 1 := next[|path| - 1] + 1] + [0]
    ensures Advances(g, path, next, states, path', next', states', rank, finished)
  {
    PushMarks(path, g[path[|path| - 1]][next[|path| - 1]], states);
    PushWalks(g, path, next, states);
  }

  lemma PopMarks(path: seq<int>, states: seq<Visit>)
    requires PathIsMarked(path, states) && path != []
    ensures PathIsMarked(path[..|path| - 1], states[path[|path| - 1] := Done])
    ensures UnseenPositions(states[path[|path| - 1] := Done]) == UnseenPositions(states)
  {
    assert path == path[..|path| - 1] + [path[|path| - 1]];
  }

  lemma {:induction false} PopWalks(g: Graph, path: seq<int>, next: seq<int>, states: seq<Visit>)
    requires InRange(g) && |states| == |g| && PathIsWalk(g, path, next) && FollowedEdgesDone(g, path, next, states)
    requires path != [] && next[|path| - 1] == |g[path[|path| - 1]]|
    ensures var top := |path| - 1;
            && PathIsWalk(g, path[..top], next[..top])
            && FollowedEdgesDone(g, path[..top], next[..top], states[path[top] := Done])
            && (forall k :: 0 <= k < |g[path[top]]| ==> states[g[path[top]][k]] == Done)
            && Work(g, path[..top], next[..top]) < Work(g, path, next)
  {
    var top := |path| - 1;
    var path', next', states' := path[..top], next[..top], states[path[top] := Done];
    forall i | 0 <= i < top - 1 ensures LeadsUp(g, path', next', i) {
      assert LeadsUp(g, path, next, i);
    }
    forall i, k | 0 <= i < top && 0 <= k < Followed(path', next', i)
      ensures states'[g[path'[i]][k]] == Done
    {
      assert LeadsUp(g, path, next, i);
      assert k < Followed(path, next, i) || g[path[i]][k] == path[i + 1];
    }
    forall k | 0 <= k < |g[path[top]]| ensures states[g[path[top]][k]] == Done {
      assert k < Followed(path, next, top);
    }
  }

  lemma StepBack(g: Graph, path: seq<int>, next: seq<int>, states: seq<Visit>, rank: seq<int>, finished: int,
                 path': seq<int>, next': seq<int>, states': seq<Visit>, rank': seq<int>)
    requires Searching(g, path, next, states, rank, finished) && path != []
    requires next[|path| - 1] == |g[path[|path| - 1]]|
    requires var top := |path| - 1;
             path' == path[..top] && next' == next[..top] && states' == states[path[top] := Done]
    requires rank' == rank[path[|path| - 1] := finished]
    ensures Advances(g, path, next, states, path', next', states', rank', finished + 1)
  {
    PopMarks(path, states);
    PopWalks(g, path, next, states);
  }

  lemma SeenAgainIsOnCycle(g: Graph, path: seq<int>, next: seq<int>, states: seq<Visit>, dependency: int)
    requires PathIsWalk(g, path, next) && PathIsMarked(path, states) && path != []
    requires 0 <= dependency < |states| && states[dependency] == OnStack
    requires dependency in g[path[|path| - 1]]
    ensures OnCycle(g, dependency)
  {
    var i :| 0 <= i < |path| && path[i] == dependency;
    PathClosesCycle(g, path, next, i);
  }

  /** Follows the next edge of the position on top of the stack, or steps back from it. */
  method FollowEdge(g: Graph, path: seq<int>, next: seq<int>, states: seq<Visit>, ghost rank: seq<int>, ghost finished: int)
    returns (r: Option<int>, path': seq<int>, next': seq<int>, states': seq<Visit>, ghost rank': seq<int>, ghost finished': int)
    requires Searching(g, path, next, states, rank, finished) && path != []
    ensures r.Some? ==> 0 <= r.value < |g| && OnCycle(g, r.value)
    ensures r.None? ==> Advances(g, path, next, states, path', next', states', rank', finished')
  {
    r, path', next', states', rank', finished' := None, path, next, states, rank, finished;
    var top := |path| - 1;
    var position, edge := path[top], next[top];
    if edge < |g[position]| {
      var dependency := g[position][edge];
      if states[dependency] == OnStack {
        SeenAgainIsOnCycle(g, path, next, states, dependency);
        r := Some(dependency);
      } else if states[dependency] == Unseen {
        states' := states[dependency := OnStack];
        path', next' := path + [dependency], next[top := edge + 1] + [0];
        StepIntoUnseen(g, path, next, states, rank, finished, path', next', states');
      } else {
        next' := next[top := edge + 1];
        StepOverDone(g, path, next, states, rank, finished, next');
      }
    } else {
      path', next' := path[..top], next[..top];
      states' := states[position := Done];
      rank', finished' := rank[position := finished], finished + 1;
      StepBack(g, path, next, states, rank, finished, path', next', states', rank');
    }
  }

  /**
   * One exploration from an unseen position, with its explicit stack. Either it returns a position
   * on a cycle, or it leaves every position it reached done and ranked.
   */
  method Explore(g: Graph, states: seq<Visit>, start: int, ghost rank: seq<int>, ghost finished: int)
    returns (r: Option<int>, states': seq<Visit>, ghost rank': seq<int>, ghost finished': int)
    requires Searching(g, [], [], states, rank, finished)
    requires 0 <= start < |states| && states[start] == Unseen
    ensures r.Some? ==> 0 <= r.value < |g| && OnCycle(g, r.value)
    ensures r.None? ==> Searching(g, [], [], states', rank', finished')
    ensures r.None? ==> UnseenPositions(states') <= UnseenPositions(states) - {start}
  {
    r, rank', finished' := None, rank, finished;
    FirstStep(g, states, start, rank, finished);
    states' := states[start := OnStack];
    var path, next := [start], [0];
    while path != []
      invariant r.None?
      invariant Searching(g, path, next, states', rank', finished')
      invariant UnseenPositions(states') <= UnseenPositions(states) - {start}
      decreases UnseenPositions(states'), Work(g, path, next)
    {
      r, path, next, states', rank', finished' := FollowEdge(g, path, next, states', rank', finished');
      if r.Some? {
        return;
      }
    }
    assert next == [];
  }

  /**
   * The search. A position it returns lies on a cycle, and it returns none exactly when the graph
   * has a topological rank.
   */
  method FindDependencyCycle(g: Graph) returns (r: Option<int>)
    requires InRange(g)
    ensures r.Some? ==> 0 <= r.value < |g| && OnCycle(g, r.value)
    ensures r.None? <==> exists rank :: IsRank(g, rank)
  {
    var states := seq(|g|, _ => Unseen);
    ghost var rank, finished := seq(|g|, _ => 0), 0;
    for start := 0 to |g|
      invariant Searching(g, [], [], states, rank, finished)
      invariant forall u :: u in UnseenPositions(states) ==> start <= u
    {
      if states[start] != Unseen {
        continue;
      }
      r, states, rank, finished := Explore(g, states, start, rank, finished);
      if r.Some? {
        forall order ensures !IsRank(g, order) {
          CycleExcludesRank(g, r.value, order);
        }
        return;
      }
    }
    forall u | 0 <= u < |g| ensures states[u] == Done {
      assert u !in UnseenPositions(states);
    }
    assert IsRank(g, rank);
    r := None;
  }
}
