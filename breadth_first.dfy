/** What the breadth-first search of `get_shortest_path` in
    models/outdoor/navigation/task_env.py keeps from one iteration to the
    next, and why the path read back from the parent map is a walk from
    the source to the target that repeats no key. */
module BreadthFirst {
  import opened PanoGraph

  /** A walk in the graph: every key but the last is a node, and each key
      is a link of the one before. */
  ghost predicate IsWalk(g: Graph, p: seq<string>) {
    |p| >= 1 && forall i :: 0 <= i < |p| - 1 ==> p[i] in g.nodes && p[i + 1] in g.nodes[p[i]].links
  }

  ghost predicate Reachable(g: Graph, s: string, t: string) {
    exists p :: IsWalk(g, p) && p[0] == s && p[|p| - 1] == t
  }

  /** Every link of a node in `s` is in `s`. */
  ghost predicate ClosedSet(g: Graph, s: set<string>) {
    forall v, l :: v in s && v in g.nodes && l in g.nodes[v].links ==> l in s
  }

  /** A walk that starts inside a set closed under links ends inside it. */
  lemma {:induction false} WalkStaysInside(g: Graph, s: set<string>, p: seq<string>)
    requires IsWalk(g, p) && p[0] in s && ClosedSet(g, s)
    ensures p[|p| - 1] in s
  {
    if |p| > 1 {
      var q := p[..|p| - 1];
      assert IsWalk(g, q);
      WalkStaysInside(g, s, q);
      assert p[|p| - 2] in g.nodes && p[|p| - 1] in g.nodes[p[|p| - 2]].links;
    }
  }

  /** The number of queue entries that are already visited. */
  function CountIn(q: seq<string>, s: set<string>): nat {
    if q == [] then 0 else (if q[0] in s then 1 else 0) + CountIn(q[1..], s)
  }

  lemma {:induction false} CountInConcat(a: seq<string>, b: seq<string>, s: set<string>)
    ensures CountIn(a + b, s) == CountIn(a, s) + CountIn(b, s)
  {
    if a == [] {
      assert a + b == b;
    } else {
      assert (a + b)[0] == a[0];
      assert (a + b)[1..] == a[1..] + b;
      CountInConcat(a[1..], b, s);
    }
  }

  lemma {:induction false} CountInNone(q: seq<string>, s: set<string>)
    requires forall i :: 0 <= i < |q| ==> q[i] !in s
    ensures CountIn(q, s) == 0
  {
    if q != [] {
      CountInNone(q[1..], s);
    }
  }

  /** The links of a node that are not yet visited, in link order. */
  function Unvisited(links: seq<string>, visited: set<string>): (r: seq<string>)
    ensures forall i :: 0 <= i < |r| ==> r[i] !in visited
    ensures forall l :: l in r <==> l in links && l !in visited
  {
    if links == [] then []
    else (if links[0] in visited then [] else [links[0]]) + Unvisited(links[1..], visited)
  }

  /** `parent'` is `parent` with `cur` recorded for every key of `newKeys`. */
  ghost predicate Recorded(parent: map<string, string>, parent': map<string, string>, newKeys: seq<string>, cur: string) {
    && (forall x :: x in parent' <==> x in parent || x in newKeys)
    && (forall x :: x in parent' ==> parent'[x] == if x in newKeys then cur else parent[x])
  }

  lemma {:induction false} UnvisitedSnoc(links: seq<string>, l: string, visited: set<string>)
    ensures Unvisited(links + [l], visited) == Unvisited(links, visited) + (if l in visited then [] else [l])
  {
    if links != [] {
      assert (links + [l])[1..] == links[1..] + [l];
      UnvisitedSnoc(links[1..], l, visited);
    }
  }

  /** What the search loop of `get_shortest_path` keeps. `rank` numbers the
      visited keys in visiting order; a parent is always visited before
      the key it was recorded for, so following parents ends at the source. */
  ghost predicate BfsInv(g: Graph, source: string, target: string, visited: set<string>, queue: seq<string>,
                         parent: map<string, string>, rank: map<string, nat>, found: bool)
  {
    && rank.Keys == visited
    && visited <= g.nodes.Keys
    && target !in visited
    && (visited == {} ==> parent == map[] && (!found ==> queue == [source]) && (found ==> target == source))
    && (visited != {} ==> source in visited)
    && source !in parent
    && (forall x :: x in rank ==> rank[x] < |visited|)
    && ParentsOk(g, source, visited, parent, rank)
    && QueueOk(source, queue, parent)
    && (found ==> target == source || target in parent)
    && (!found && visited != {} ==> ClosureOk(g, visited, queue))
  }

  /** Every recorded parent is visited, linked to its key, and visited
      before it; every visited key but the source has a parent. */
  ghost predicate ParentsOk(g: Graph, source: string, visited: set<string>, parent: map<string, string>,
                            rank: map<string, nat>)
  {
    && (forall x {:trigger parent[x]} :: x in parent ==>
          parent[x] in visited && parent[x] in g.nodes && x in g.nodes[parent[x]].links)
    && (forall x {:trigger rank[x], parent[x]} :: x in parent && x in visited ==>
          parent[x] in rank && x in rank && rank[parent[x]] < rank[x])
    && (forall x :: x in visited ==> x == source || x in parent)
  }

  /** Every queued key but the source has a parent. */
  ghost predicate QueueOk(source: string, queue: seq<string>, parent: map<string, string>) {
    forall i :: 0 <= i < |queue| ==> queue[i] == source || queue[i] in parent
  }

  /** Every link of a visited key is visited or queued. */
  ghost predicate ClosureOk(g: Graph, visited: set<string>, queue: seq<string>) {
    forall v, l :: v in visited && v in g.nodes && l in g.nodes[v].links ==> l in visited || l in queue
  }

  /** The state after the search loop: the parents recorded so far, and,
      unless the target was popped, a visited set closed under links. */
  ghost predicate Searched(g: Graph, source: string, target: string, visited: set<string>,
                           parent: map<string, string>, rank: map<string, nat>, found: bool)
  {
    && rank.Keys == visited
    && visited <= g.nodes.Keys
    && target !in visited
    && source !in parent
    && (forall x :: x in rank ==> rank[x] < |visited|)
    && ParentsOk(g, source, visited, parent, rank)
    && (found ==> target == source || target in parent)
    && (!found ==> source in visited && ClosedSet(g, visited))
  }

  /** The search starts with only the source queued. */
  lemma SearchStart(g: Graph, source: string, target: string)
    requires WellFormed(g) && source in g.nodes
    ensures BfsInv(g, source, target, {}, [source], map[], map[], false)
    ensures Closed(g) ==> QueuedNodes(g, [source])
  {
  }

  /** When the loop ends, either the target was popped or the queue is
      empty, and then every link of a visited key was visited. */
  lemma SearchDone(g: Graph, source: string, target: string, visited: set<string>, queue: seq<string>,
                   parent: map<string, string>, rank: map<string, nat>, found: bool)
    requires BfsInv(g, source, target, visited, queue, parent, rank, found)
    requires found || queue == []
    ensures Searched(g, source, target, visited, parent, rank, found)
  {
    if !found {
      assert ClosureOk(g, visited, queue);
      forall v, l | v in visited && v in g.nodes && l in g.nodes[v].links
        ensures l in visited
      {
        assert l !in queue;
      }
    }
  }

  ghost predicate QueuedNodes(g: Graph, queue: seq<string>) {
    forall i :: 0 <= i < |queue| ==> queue[i] in g.nodes
  }

  /** The lexicographic measure of the search loop goes down. */
  ghost predicate Progress(g: Graph, visited: set<string>, queue: seq<string>, visited': set<string>, queue': seq<string>) {
    || |g.nodes.Keys - visited'| < |g.nodes.Keys - visited|
    || (|g.nodes.Keys - visited'| == |g.nodes.Keys - visited| &&
        (CountIn(queue', visited') < CountIn(queue, visited) ||
         (CountIn(queue', visited') == CountIn(queue, visited) && |queue'| < |queue|)))
  }

  /** Popping the target ends the search with the target recorded. */
  lemma PopTarget(g: Graph, source: string, target: string, visited: set<string>, queue: seq<string>,
                  parent: map<string, string>, rank: map<string, nat>)
    requires BfsInv(g, source, target, visited, queue, parent, rank, false) && |queue| > 0 && queue[0] == target
    ensures BfsInv(g, source, target, visited, queue[1..], parent, rank, true)
    ensures Progress(g, visited, queue, visited, queue[1..])
    ensures Closed(g) && QueuedNodes(g, queue) ==> QueuedNodes(g, queue[1..])
  {
    assert queue == [target] + queue[1..];
    assert CountIn(queue, visited) == CountIn(queue[1..], visited);
    forall i | 0 <= i < |queue[1..]|
      ensures queue[1..][i] == source || queue[1..][i] in parent
    {
      assert queue[1..][i] == queue[i + 1];
    }
  }

  /** A popped key that is not a node was queued as a link of a visited
      node, so the graph is not closed. */
  lemma PopMissing(g: Graph, source: string, target: string, visited: set<string>, queue: seq<string>,
                   parent: map<string, string>, rank: map<string, nat>)
    requires BfsInv(g, source, target, visited, queue, parent, rank, false) && source in g.nodes
    requires |queue| > 0 && queue[0] !in g.nodes
    ensures !Closed(g) && visited != {}
  {
    var cur := queue[0];
    assert cur in parent;
    assert parent[cur] in g.nodes && cur in g.nodes[parent[cur]].links;
  }

  /** Expanding a key lowers the measure of the search loop and, in a
      closed graph, queues only nodes. */
  lemma ExpandProgress(g: Graph, visited: set<string>, queue: seq<string>, cur: string, queue': seq<string>)
    requires WellFormed(g) && |queue| > 0 && cur == queue[0] && cur in g.nodes
    requires queue' == queue[1..] + Unvisited(g.nodes[cur].linkOrder, visited + {cur})
    ensures Progress(g, visited, queue, visited + {cur}, queue')
    ensures Closed(g) && QueuedNodes(g, queue) ==> QueuedNodes(g, queue')
  {
    var links := g.nodes[cur].linkOrder;
    var rest := queue[1..];
    assert queue == [cur] + rest;
    if Closed(g) && QueuedNodes(g, queue) {
      ClosedQueue(g, cur, rest, visited + {cur}, queue');
    }
    if cur !in visited {
      Shrinks(g.nodes.Keys, visited, cur);
    } else {
      assert visited + {cur} == visited;
      CountInConcat(rest, Unvisited(links, visited), visited);
      CountInNone(Unvisited(links, visited), visited);
    }
  }

  lemma Shrinks(keys: set<string>, visited: set<string>, cur: string)
    requires cur in keys && cur !in visited
    ensures |keys - (visited + {cur})| < |keys - visited|
  {
    assert keys - (visited + {cur}) == (keys - visited) - {cur};
  }

  /** In a closed graph every queued key is a node. */
  lemma ClosedQueue(g: Graph, cur: string, rest: seq<string>, visited: set<string>, queue': seq<string>)
    requires Closed(g) && cur in g.nodes && WellFormed(g)
    requires forall i :: 0 <= i < |rest| ==> rest[i] in g.nodes
    requires queue' == rest + Unvisited(g.nodes[cur].linkOrder, visited)
    ensures forall i :: 0 <= i < |queue'| ==> queue'[i] in g.nodes
  {
    forall i | 0 <= i < |queue'|
      ensures queue'[i] in g.nodes
    {
      if i >= |rest| {
        assert queue'[i] in Unvisited(g.nodes[cur].linkOrder, visited);
      }
    }
  }

  /** The search ended without popping the target: the target is not
      reachable from the source. */
  lemma Unreachable(g: Graph, source: string, target: string, visited: set<string>)
    requires source in visited && target !in visited && ClosedSet(g, visited)
    ensures !Reachable(g, source, target)
  {
    forall p | IsWalk(g, p) && p[0] == source && p[|p| - 1] == target
      ensures false
    {
      WalkStaysInside(g, visited, p);
    }
  }

  lemma Prepend(g: Graph, source: string, target: string, visited: set<string>,
                parent: map<string, string>, rank: map<string, nat>, path: seq<string>)
    requires rank.Keys == visited && visited <= g.nodes.Keys && target !in visited
    requires ParentsOk(g, source, visited, parent, rank) && target in parent && target in g.nodes
    requires |path| >= 1 && path[|path| - 1] == target && path[0] != source
    requires path[0] == target || path[0] in visited
    requires path[0] == target ==> |path| == 1
    requires IsWalk(g, path) && RankedPath(path, rank)
    ensures path[0] in parent
    ensures IsWalk(g, [parent[path[0]]] + path) && RankedPath([parent[path[0]]] + path, rank)
    ensures parent[path[0]] in visited
    ensures path[0] in visited ==> rank[parent[path[0]]] < rank[path[0]]
  {
    var x := path[0];
    var p := parent[x];
    assert p in visited && p in g.nodes && x in g.nodes[p].links;
    PrependWalk(g, p, path);
    if x in visited {
      assert rank[p] < rank[x];
    }
    PrependRanked(p, path, rank);
  }

  lemma PrependWalk(g: Graph, p: string, path: seq<string>)
    requires IsWalk(g, path) && p in g.nodes && path[0] in g.nodes[p].links
    ensures IsWalk(g, [p] + path)
  {
    var q := [p] + path;
    forall i | 0 <= i < |q| - 1
      ensures q[i] in g.nodes && q[i + 1] in g.nodes[q[i]].links
    {
      if i > 0 {
        assert q[i] == path[i - 1] && q[i + 1] == path[i];
      }
    }
  }

  lemma PrependRanked(p: string, path: seq<string>, rank: map<string, nat>)
    requires RankedPath(path, rank) && |path| >= 1 && p in rank
    requires |path| >= 2 ==> path[0] in rank && rank[p] < rank[path[0]]
    ensures RankedPath([p] + path, rank)
  {
    var q := [p] + path;
    forall i | 0 <= i < |q| - 1
      ensures q[i] in rank
    {
      if i > 0 {
        assert q[i] == path[i - 1];
      }
    }
    forall i, j | 0 <= i < j < |q| - 1
      ensures rank[q[i]] < rank[q[j]]
    {
      if i == 0 {
        assert q[j] == path[j - 1];
        if j > 1 {
          assert rank[path[0]] < rank[path[j - 1]];
        }
      } else {
        assert q[i] == path[i - 1] && q[j] == path[j - 1];
      }
    }
  }

  /** The keys of the path, but the last, were visited in increasing order. */
  ghost predicate RankedPath(p: seq<string>, rank: map<string, nat>) {
    && (forall i :: 0 <= i < |p| - 1 ==> p[i] in rank)
    && (forall i, j :: 0 <= i < j < |p| - 1 ==> rank[p[i]] < rank[p[j]])
  }

  lemma RankedPathDistinct(p: seq<string>, rank: map<string, nat>)
    requires RankedPath(p, rank) && |p| >= 1 && p[|p| - 1] !in rank
    ensures Distinct(p)
  {
    forall i, j | 0 <= i < j < |p|
      ensures p[i] != p[j]
    {
      if j == |p| - 1 {
        assert p[i] in rank;
      } else {
        assert rank[p[i]] < rank[p[j]];
      }
    }
  }

  /** One iteration of the search loop keeps `BfsInv`. */
  lemma BfsStep(g: Graph, source: string, target: string, visited: set<string>, queue: seq<string>,
                parent: map<string, string>, rank: map<string, nat>, cur: string,
                queue': seq<string>, parent': map<string, string>, rank': map<string, nat>)
    requires WellFormed(g)
    requires BfsInv(g, source, target, visited, queue, parent, rank, false)
    requires |queue| > 0 && cur == queue[0] && cur != target && cur in g.nodes
    requires rank' == if cur in visited then rank else rank[cur := |visited|]
    requires queue' == queue[1..] + Unvisited(g.nodes[cur].linkOrder, visited + {cur})
    requires Recorded(parent, parent', Unvisited(g.nodes[cur].linkOrder, visited + {cur}), cur)
    ensures BfsInv(g, source, target, visited + {cur}, queue', parent', rank', false)
  {
    var visited' := visited + {cur};
    var newKeys := Unvisited(g.nodes[cur].linkOrder, visited');
    assert WellFormedNode(g.nodes[cur]);
    if visited == {} {
      assert cur == source;
    }
    assert cur in visited';
    StepRank(visited, rank, cur, rank');
    StepParents(g, source, visited, parent, rank, cur, newKeys, parent', rank');
    StepQueue(source, queue, parent, newKeys, queue', parent', cur);
    StepClosure(g, visited, queue, cur, newKeys, queue');
  }

  lemma StepRank(visited: set<string>, rank: map<string, nat>, cur: string, rank': map<string, nat>)
    requires rank.Keys == visited && forall x :: x in rank ==> rank[x] < |visited|
    requires rank' == if cur in visited then rank else rank[cur := |visited|]
    ensures rank'.Keys == visited + {cur}
    ensures forall x :: x in rank' ==> rank'[x] < |visited + {cur}|
  {
    if cur !in visited {
      assert |visited + {cur}| == |visited| + 1;
    } else {
      assert visited + {cur} == visited;
    }
  }

  lemma StepParents(g: Graph, source: string, visited: set<string>, parent: map<string, string>,
                    rank: map<string, nat>, cur: string, newKeys: seq<string>,
                    parent': map<string, string>, rank': map<string, nat>)
    requires ParentsOk(g, source, visited, parent, rank) && rank.Keys == visited
    requires cur in g.nodes && (visited == {} ==> cur == source && parent == map[])
    requires cur == source || cur in parent
    requires rank' == if cur in visited then rank else rank[cur := |visited|]
    requires forall x :: x in rank ==> rank[x] < |visited|
    requires forall l :: l in newKeys ==> l in g.nodes[cur].links && l !in visited + {cur}
    requires Recorded(parent, parent', newKeys, cur)
    ensures ParentsOk(g, source, visited + {cur}, parent', rank')
  {
    StepLinked(g, source, visited, parent, rank, cur, newKeys, parent');
    StepRanked(g, source, visited, parent, rank, cur, newKeys, parent', rank');
  }

  /** The parents recorded by a step are visited and linked to their keys. */
  lemma StepLinked(g: Graph, source: string, visited: set<string>, parent: map<string, string>,
                   rank: map<string, nat>, cur: string, newKeys: seq<string>, parent': map<string, string>)
    requires ParentsOk(g, source, visited, parent, rank) && cur in g.nodes
    requires forall l :: l in newKeys ==> l in g.nodes[cur].links
    requires Recorded(parent, parent', newKeys, cur)
    ensures forall x {:trigger parent'[x]} :: x in parent' ==>
      parent'[x] in visited + {cur} && parent'[x] in g.nodes && x in g.nodes[parent'[x]].links
  {
    forall x | x in parent'
      ensures parent'[x] in visited + {cur} && parent'[x] in g.nodes && x in g.nodes[parent'[x]].links
    {
      if x in newKeys {
        assert parent'[x] == cur;
      } else {
        assert parent'[x] == parent[x];
      }
    }
  }

  /** A step keeps every parent visited before its key, and every visited
      key but the source with a parent. */
  lemma StepRanked(g: Graph, source: string, visited: set<string>, parent: map<string, string>,
                   rank: map<string, nat>, cur: string, newKeys: seq<string>,
                   parent': map<string, string>, rank': map<string, nat>)
    requires ParentsOk(g, source, visited, parent, rank) && rank.Keys == visited
    requires cur == source || cur in parent
    requires rank' == if cur in visited then rank else rank[cur := |visited|]
    requires forall x :: x in rank ==> rank[x] < |visited|
    requires forall l :: l in newKeys ==> l !in visited + {cur}
    requires Recorded(parent, parent', newKeys, cur)
    ensures forall x {:trigger rank'[x], parent'[x]} :: x in parent' && x in visited + {cur} ==>
      parent'[x] in rank' && x in rank' && rank'[parent'[x]] < rank'[x]
    ensures forall x :: x in visited + {cur} ==> x == source || x in parent'
  {
    var visited' := visited + {cur};
    forall x | x in parent' && x in visited'
      ensures parent'[x] in rank' && x in rank' && rank'[parent'[x]] < rank'[x]
    {
      assert x !in newKeys;
      assert parent'[x] == parent[x];
      if x == cur && cur !in visited {
        assert rank'[x] == |visited|;
        assert rank'[parent[x]] == rank[parent[x]];
      } else {
        assert x in visited;
      }
    }
  }

  lemma StepQueue(source: string, queue: seq<string>, parent: map<string, string>, newKeys: seq<string>,
                  queue': seq<string>, parent': map<string, string>, cur: string)
    requires QueueOk(source, queue, parent) && |queue| > 0
    requires queue' == queue[1..] + newKeys
    requires Recorded(parent, parent', newKeys, cur)
    ensures QueueOk(source, queue', parent')
  {
    forall i | 0 <= i < |queue'|
      ensures queue'[i] == source || queue'[i] in parent'
    {
      if i >= |queue| - 1 {
        assert queue'[i] == newKeys[i - (|queue| - 1)];
      } else {
        assert queue'[i] == queue[i + 1];
      }
    }
  }

  lemma StepClosure(g: Graph, visited: set<string>, queue: seq<string>, cur: string, newKeys: seq<string>,
                    queue': seq<string>)
    requires visited != {} ==> ClosureOk(g, visited, queue)
    requires visited == {} ==> queue == [cur]
    requires |queue| > 0 && cur == queue[0] && cur in g.nodes
    requires queue' == queue[1..] + newKeys
    requires forall l :: l in g.nodes[cur].links && l !in visited + {cur} ==> l in newKeys
    ensures ClosureOk(g, visited + {cur}, queue')
  {
    var visited' := visited + {cur};
    forall v, l | v in visited' && v in g.nodes && l in g.nodes[v].links
      ensures l in visited' || l in queue'
    {
      if v != cur && l !in visited' {
        assert l in queue;
        var i :| 0 <= i < |queue| && queue[i] == l;
        assert i != 0;
        assert queue'[i - 1] == l;
      }
    }
  }
}
