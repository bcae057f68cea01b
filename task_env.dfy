/** The navigation environment of models/outdoor/navigation/task_env.py:
    `NaviMap` (the panorama graph of a task, the agent's current heading
    and the street-view cache counters) and `NaviEnv` (a task's source,
    target and current location, and the reward of a step).

    The street-view fetch is not modelled: an observation is the list of
    absolute headings at which views are requested, and whether a request
    is served from the cache is the parameter `cached`. */
module TaskEnv {
  import opened Wrappers
  import opened Angles
  import opened PanoGraph
  import opened Headings
  import opened BreadthFirst

  /** The inner loop of the breadth-first search: every link of `cur`
      that is not visited is queued with `cur` as its parent. */
  method Expand(cur: string, links: seq<string>, visited: set<string>, queue: seq<string>,
                parent: map<string, string>) returns (queue': seq<string>, parent': map<string, string>)
    ensures queue' == queue + Unvisited(links, visited)
    ensures Recorded(parent, parent', Unvisited(links, visited), cur)
  {
    queue', parent' := queue, parent;
    var j := 0;
    while j < |links|
      invariant 0 <= j <= |links|
      invariant queue' == queue + Unvisited(links[..j], visited)
      invariant Recorded(parent, parent', Unvisited(links[..j], visited), cur)
    {
      var l := links[j];
      UnvisitedPrefix(links, j, visited);
      if l !in visited {
        RecordedStep(parent, parent', Unvisited(links[..j], visited), cur, l);
        queue' := queue' + [l];
        parent' := parent'[l := cur];
      }
      j := j + 1;
    }
    assert links[..j] == links;
  }

  /** The unvisited links of one more prefix of `links`. */
  lemma UnvisitedPrefix(links: seq<string>, j: nat, visited: set<string>)
    requires j < |links|
    ensures Unvisited(links[..j + 1], visited) ==
      Unvisited(links[..j], visited) + (if links[j] in visited then [] else [links[j]])
  {
    UnvisitedSnoc(links[..j], links[j], visited);
    assert links[..j + 1] == links[..j] + [links[j]];
  }

  /** Recording one more key keeps `Recorded`. */
  lemma RecordedStep(parent: map<string, string>, mid: map<string, string>, keys: seq<string>, cur: string, l: string)
    requires Recorded(parent, mid, keys, cur)
    ensures Recorded(parent, mid[l := cur], keys + [l], cur)
  {
    forall x
      ensures x in keys + [l] <==> x in keys || x == l
    {
    }
  }

  /** The search loop of `get_shortest_path`: pop the front of the queue,
      stop at the target, otherwise mark the key visited and queue its
      unvisited links. A queued key that is not a node raises `KeyError`. */
  method Search(g: Graph, source: string, target: string)
    returns (r: Result<(set<string>, map<string, string>)>, ghost rank: map<string, nat>, ghost found: bool)
    requires WellFormed(g) && source in g.nodes
    ensures Closed(g) ==> r.Ok?
    ensures r.Err? ==> r.error == KeyError
    ensures r.Ok? ==> Searched(g, source, target, r.value.0, r.value.1, rank, found)
    ensures source == target ==> r.Ok? && r.value.1 == map[]
  {
    var visited: set<string> := {};
    var queue := [source];
    var parent: map<string, string> := map[];
    rank := map[];
    var stop := false;
    SearchStart(g, source, target);
    while |queue| > 0 && !stop
      invariant BfsInv(g, source, target, visited, queue, parent, rank, stop)
      invariant Closed(g) ==> QueuedNodes(g, queue)
      invariant source == target ==> visited == {} && parent == map[]
      decreases |g.nodes.Keys - visited|, CountIn(queue, visited), |queue|
    {
      var ok, visited', queue', parent', rank', stop' := SearchStep(g, source, target, visited, queue, parent, rank);
      if !ok {
        assert source != target;
        return Err(KeyError), rank, stop;
      }
      visited, queue, parent, rank, stop := visited', queue', parent', rank', stop';
    }
    found := stop;
    SearchDone(g, source, target, visited, queue, parent, rank, found);
    return Ok((visited, parent)), rank, found;
  }

  /** One iteration of the search loop; `ok` is false where it raises
      `KeyError`. */
  method SearchStep(g: Graph, source: string, target: string, visited: set<string>, queue: seq<string>,
                    parent: map<string, string>, ghost rank: map<string, nat>)
    returns (ok: bool, visited': set<string>, queue': seq<string>, parent': map<string, string>,
             ghost rank': map<string, nat>, stop: bool)
    requires WellFormed(g) && source in g.nodes && |queue| > 0
    requires BfsInv(g, source, target, visited, queue, parent, rank, false)
    ensures !ok ==> !Closed(g) && visited != {}
    ensures ok ==> BfsInv(g, source, target, visited', queue', parent', rank', stop)
    ensures ok ==> Progress(g, visited, queue, visited', queue')
    ensures ok && Closed(g) && QueuedNodes(g, queue) ==> QueuedNodes(g, queue')
    ensures source == target && visited == {} ==> ok && visited' == {} && parent' == map[]
  {
    var cur := queue[0];
    if cur == target {
      PopTarget(g, source, target, visited, queue, parent, rank);
      return true, visited, queue[1..], parent, rank, true;
    }
    if cur !in g.nodes {
      PopMissing(g, source, target, visited, queue, parent, rank);
      return false, visited, queue, parent, rank, false;
    }
    var links := g.nodes[cur].linkOrder;
    visited' := visited + {cur};
    queue', parent' := Expand(cur, links, visited', queue[1..], parent);
    rank' := if cur in visited then rank else rank[cur := |visited|];
    BfsStep(g, source, target, visited, queue, parent, rank, cur, queue', parent', rank');
    ExpandProgress(g, visited, queue, cur, queue');
    return true, visited', queue', parent', rank', false;
  }

  /** The reconstruction loop of `get_shortest_path`: follow the parents
      from the target back to the source. The list is built front to back,
      which is the reversed list of the source. */
  method FollowParents(g: Graph, source: string, target: string, visited: set<string>,
                       parent: map<string, string>, ghost rank: map<string, nat>) returns (path: seq<string>)
    requires rank.Keys == visited && visited <= g.nodes.Keys && target !in visited && source !in parent
    requires ParentsOk(g, source, visited, parent, rank) && target in parent && target in g.nodes
    requires forall x :: x in rank ==> rank[x] < |visited|
    ensures IsWalk(g, path) && path[0] == source && path[|path| - 1] == target && Distinct(path)
  {
    path := [target];
    while path[0] != source
      invariant |path| >= 1 && path[|path| - 1] == target
      invariant path[0] == target || path[0] in visited
      invariant path[0] == target ==> |path| == 1
      invariant IsWalk(g, path) && RankedPath(path, rank)
      decreases if path[0] in visited then rank[path[0]] else |visited|
    {
      var p := parent[path[0]];
      Prepend(g, source, target, visited, parent, rank, path);
      path := [p] + path;
    }
    RankedPathDistinct(path, rank);
  }

  /** The widest-gap headings are made absolute again:
      `(heading + cur_heading) % 360` for each of them. */
  function Absolute(hs: seq<real>, cur: real): (r: seq<real>)
    ensures |r| == |hs| && forall i :: 0 <= i < |r| ==> 0.0 <= r[i] < 360.0
  {
    seq(|hs|, i requires 0 <= i < |hs| => RealMod(hs[i] + cur, 360.0))
  }

  /** The headings of a node's links, in link order. */
  function LinkHeadings(n: Node): seq<real>
    requires forall i :: 0 <= i < |n.linkOrder| ==> n.linkOrder[i] in n.links
  {
    seq(|n.linkOrder|, i requires 0 <= i < |n.linkOrder| => n.links[n.linkOrder[i]].heading)
  }

  /** Python's `xs[i]` on a list of length `n`: negative indices count from
      the end; anything outside [-n, n) raises `IndexError`. */
  function PyIndex(n: nat, i: int): (r: Option<nat>)
    ensures r.Some? <==> -(n as int) <= i < n
    ensures r.Some? ==> r.value < n && (r.value as int == i || r.value as int == i + n)
  {
    if 0 <= i < n then Some(i) else if -(n as int) <= i < 0 then Some(i + n) else None
  }

  /** The heading difference of `heading` to each observation heading. */
  function Diffs(heading: real, abs: seq<real>): (d: seq<real>)
    ensures |d| == |abs| && forall i :: 0 <= i < |abs| ==> d[i] == HeadingDiff(heading, abs[i])
  {
    seq(|abs|, i requires 0 <= i < |abs| => HeadingDiff(heading, abs[i]))
  }

  /** The (slot, difference) the nearest-slot scan holds after the first
      `n` differences, starting from no slot and 3600. */
  function NearestUpTo(d: seq<real>, n: nat): (r: (Option<nat>, real))
    requires n <= |d|
  {
    if n == 0 then (None, 3600.0)
    else
      var (slot, best) := NearestUpTo(d, n - 1);
      if d[n - 1] < best then (Some(n - 1), d[n - 1]) else (slot, best)
  }

  /** The scan keeps the first slot of least difference below 3600. */
  lemma {:induction false} NearestUpToMin(d: seq<real>, n: nat)
    requires n <= |d|
    ensures var (slot, best) := NearestUpTo(d, n);
      && (slot.None? ==> best == 3600.0 && forall i :: 0 <= i < n ==> d[i] >= 3600.0)
      && (slot.Some? ==> slot.value < n && best == d[slot.value] && best < 3600.0 &&
                         (forall i :: 0 <= i < n ==> best <= d[i]) &&
                         (forall i :: 0 <= i < slot.value ==> best < d[i]))
  {
    if n > 0 {
      NearestUpToMin(d, n - 1);
    }
  }

  /** The inner loop of `move`: the first slot whose heading is nearest to
      a link's heading, if any is nearer than the initial 3600. */
  method NearestSlot(heading: real, abs: seq<real>) returns (slot: Option<nat>, minDiff: real)
    requires |abs| == 4
    ensures (slot, minDiff) == NearestUpTo(Diffs(heading, abs), |abs|)
    ensures slot.None? ==>
      minDiff == 3600.0 && forall i :: 0 <= i < 4 ==> HeadingDiff(heading, abs[i]) >= 3600.0
    ensures slot.Some? ==>
      slot.value < 4 && minDiff == HeadingDiff(heading, abs[slot.value]) && minDiff < 3600.0 &&
      (forall i :: 0 <= i < 4 ==> minDiff <= HeadingDiff(heading, abs[i])) &&
      (forall i :: 0 <= i < slot.value ==> minDiff < HeadingDiff(heading, abs[i]))
  {
    ghost var d := Diffs(heading, abs);
    minDiff := 3600.0;
    slot := None;
    var i := 0;
    while i < 4
      invariant 0 <= i <= 4
      invariant (slot, minDiff) == NearestUpTo(d, i)
    {
      var diff := HeadingDiff(heading, abs[i]);
      if diff < minDiff {
        minDiff := diff;
        slot := Some(i);
      }
      i := i + 1;
    }
    NearestUpToMin(d, |abs|);
  }

  /** Some observation heading is exactly a link's heading. */
  ghost predicate HasSlot(heading: real, abs: seq<real>) {
    exists i :: 0 <= i < |abs| && HeadingDiff(heading, abs[i]) == 0.0
  }

  /** Every slot holds the node itself or a link whose heading is exactly
      the slot's observation heading. */
  predicate SlotsOk(nodeId: string, n: Node, abs: seq<real>, nodes: seq<string>)
    requires |abs| == 4
  {
    |nodes| == 4 &&
    forall i :: 0 <= i < 4 ==>
      nodes[i] == nodeId || (nodes[i] in n.links && HeadingDiff(n.links[nodes[i]].heading, abs[i]) == 0.0)
  }

  /** For each link in order, the differences of its heading to the four
      observation headings. */
  function SlotDiffs(n: Node, abs: seq<real>): (t: seq<seq<real>>)
    requires WellFormedNode(n)
    ensures |t| == |n.linkOrder| && forall k :: 0 <= k < |t| ==> |t[k]| == |abs|
  {
    seq(|n.linkOrder|, k requires 0 <= k < |n.linkOrder| => Diffs(n.links[n.linkOrder[k]].heading, abs))
  }

  /** A table of differences to four slots, one row per link. */
  predicate FourWide(t: seq<seq<real>>) {
    forall k :: 0 <= k < |t| ==> |t[k]| == 4
  }

  /** Some difference in the row is 0. */
  predicate HasZero(d: seq<real>) {
    exists i :: 0 <= i < |d| && d[i] == 0.0
  }

  /** The action slots after the first `j` links of `order`, whose
      differences to the slots are the rows of `t`: each link goes to its
      nearest slot, which must be at difference 0. */
  function SlotsAfter(nodeId: string, order: seq<string>, t: seq<seq<real>>, j: nat): (r: Result<seq<string>>)
    requires |t| == |order| && FourWide(t) && j <= |order|
    ensures r.Ok? ==> |r.value| == 4
  {
    if j == 0 then Ok([nodeId, nodeId, nodeId, nodeId])
    else
      var prev := SlotsAfter(nodeId, order, t, j - 1);
      if prev.Err? then prev
      else
        var (slot, minDiff) := NearestUpTo(t[j - 1], |t[j - 1]|);
        if minDiff != 0.0 || slot.None? || slot.value >= 4 then Err(AssertionError)
        else Ok(prev.value[slot.value := order[j - 1]])
  }

  /** Once a link has no slot at difference 0 the later links change
      nothing. */
  lemma {:induction false} SlotsAfterErrKept(nodeId: string, order: seq<string>, t: seq<seq<real>>, j: nat, k: nat)
    requires |t| == |order| && FourWide(t) && j <= k <= |order|
    requires SlotsAfter(nodeId, order, t, j).Err?
    ensures SlotsAfter(nodeId, order, t, k) == SlotsAfter(nodeId, order, t, j)
    decreases k - j
  {
    if j < k {
      SlotsAfterErrKept(nodeId, order, t, j, k - 1);
    }
  }

  /** With differences that are never negative, the slots are built
      exactly when each of the first `j` links is at difference 0 from some
      slot, and then every slot holds the node or a link at difference 0
      from that slot. */
  lemma {:induction false} SlotsAfterMeaning(nodeId: string, order: seq<string>, t: seq<seq<real>>, j: nat)
    requires |t| == |order| && FourWide(t) && j <= |order|
    requires forall k, i :: 0 <= k < |t| && 0 <= i < |t[k]| ==> t[k][i] >= 0.0
    ensures var r := SlotsAfter(nodeId, order, t, j);
      && (r.Ok? <==> forall k :: 0 <= k < j ==> HasZero(t[k]))
      && (r.Err? ==> r.error == AssertionError)
      && (r.Ok? ==> forall i :: 0 <= i < 4 ==>
            r.value[i] == nodeId || exists k :: 0 <= k < j && r.value[i] == order[k] && t[k][i] == 0.0)
  {
    if j > 0 {
      SlotsAfterMeaning(nodeId, order, t, j - 1);
      var prev := SlotsAfter(nodeId, order, t, j - 1);
      if prev.Ok? {
        var d := t[j - 1];
        NearestUpToMin(d, |d|);
        var (slot, minDiff) := NearestUpTo(d, |d|);
        if minDiff != 0.0 {
          assert !HasZero(d);
        } else {
          assert HasZero(d);
          var r := prev.value[slot.value := order[j - 1]];
          forall i | 0 <= i < 4
            ensures r[i] == nodeId || exists k :: 0 <= k < j && r[i] == order[k] && t[k][i] == 0.0
          {
            if i == slot.value {
              assert r[i] == order[j - 1] && t[j - 1][i] == 0.0;
            } else {
              assert r[i] == prev.value[i];
            }
          }
        }
      }
    }
  }

  /** The action slots of node `n` (the loop of `move` over the links). */
  function ActionSlots(nodeId: string, n: Node, abs: seq<real>): (r: Result<seq<string>>)
    requires |abs| == 4 && WellFormedNode(n)
  {
    SlotsAfter(nodeId, n.linkOrder, SlotDiffs(n, abs), |n.linkOrder|)
  }

  /** The differences are never negative, and a row has a 0 exactly when
      its link has a slot. */
  lemma SlotDiffsMeaning(n: Node, abs: seq<real>)
    requires |abs| == 4 && WellFormedNode(n)
    ensures var t := SlotDiffs(n, abs);
      && FourWide(t)
      && (forall k, i :: 0 <= k < |t| && 0 <= i < |t[k]| ==> t[k][i] >= 0.0)
      && (forall k :: 0 <= k < |t| ==> (HasZero(t[k]) <==> HasSlot(n.links[n.linkOrder[k]].heading, abs)))
      && (forall k, i :: 0 <= k < |t| && 0 <= i < |t[k]| ==>
            n.linkOrder[k] in n.links && t[k][i] == HeadingDiff(n.links[n.linkOrder[k]].heading, abs[i]))
  {
    var t := SlotDiffs(n, abs);
    forall k, i | 0 <= k < |t| && 0 <= i < |t[k]|
      ensures t[k][i] >= 0.0
    {
      HeadingDiffNonNegativeSymmetric(n.links[n.linkOrder[k]].heading, abs[i]);
    }
  }

  /** Every row has a 0 exactly when every link has a slot. */
  lemma RowsToLinks(n: Node, abs: seq<real>)
    requires |abs| == 4 && WellFormedNode(n)
    ensures (forall k :: 0 <= k < |n.linkOrder| ==> HasZero(SlotDiffs(n, abs)[k])) <==>
            (forall l :: l in n.links ==> HasSlot(n.links[l].heading, abs))
  {
    var t := SlotDiffs(n, abs);
    SlotDiffsMeaning(n, abs);
    if forall k :: 0 <= k < |t| ==> HasZero(t[k]) {
      forall l | l in n.links
        ensures HasSlot(n.links[l].heading, abs)
      {
        var k :| 0 <= k < |n.linkOrder| && n.linkOrder[k] == l;
        assert HasZero(t[k]);
      }
    } else {
      var k :| 0 <= k < |t| && !HasZero(t[k]);
      assert n.linkOrder[k] in n.links;
    }
  }

  /** Slots holding the node or a link at difference 0 in the table are
      right. */
  lemma SlotsToOk(nodeId: string, n: Node, abs: seq<real>, nodes: seq<string>)
    requires |abs| == 4 && WellFormedNode(n) && |nodes| == 4
    requires forall i :: 0 <= i < 4 ==>
      nodes[i] == nodeId ||
      exists k :: 0 <= k < |n.linkOrder| && nodes[i] == n.linkOrder[k] && SlotDiffs(n, abs)[k][i] == 0.0
    ensures SlotsOk(nodeId, n, abs, nodes)
  {
    SlotDiffsMeaning(n, abs);
  }

  /** The action slots of a node are built exactly when every link has a
      slot at difference 0 (else `AssertionError`), and then every slot
      holds the node or a link at that slot's heading. */
  lemma ActionSlotsMeaning(nodeId: string, n: Node, abs: seq<real>)
    requires |abs| == 4 && WellFormedNode(n)
    ensures var r := ActionSlots(nodeId, n, abs);
      && (r.Ok? <==> forall l :: l in n.links ==> HasSlot(n.links[l].heading, abs))
      && (r.Err? ==> r.error == AssertionError)
      && (r.Ok? ==> SlotsOk(nodeId, n, abs, r.value))
  {
    SlotDiffsMeaning(n, abs);
    SlotsAfterMeaning(nodeId, n.linkOrder, SlotDiffs(n, abs), |n.linkOrder|);
    RowsToLinks(n, abs);
    var r := ActionSlots(nodeId, n, abs);
    if r.Ok? {
      SlotsToOk(nodeId, n, abs, r.value);
    }
  }

  /** The loop of `move` over the links: each link is put in its nearest
      slot, which must be at difference 0 (else `AssertionError`); a later
      link in the same slot replaces an earlier one. */
  method ActionNodes(nodeId: string, n: Node, abs: seq<real>) returns (r: Result<seq<string>>)
    requires |abs| == 4 && WellFormedNode(n)
    ensures r == ActionSlots(nodeId, n, abs)
  {
    var nodes := [nodeId, nodeId, nodeId, nodeId];
    var j := 0;
    while j < |n.linkOrder|
      invariant 0 <= j <= |n.linkOrder|
      invariant SlotsAfter(nodeId, n.linkOrder, SlotDiffs(n, abs), j) == Ok(nodes)
    {
      var placed := PlaceLink(nodeId, n, abs, nodes, j);
      if placed.Err? {
        SlotsAfterErrKept(nodeId, n.linkOrder, SlotDiffs(n, abs), j + 1, |n.linkOrder|);
        return placed;
      }
      nodes := placed.value;
      j := j + 1;
    }
    return Ok(nodes);
  }

  /** The body of the loop of `move` over the links: link `j` goes to its
      nearest slot. */
  method PlaceLink(nodeId: string, n: Node, abs: seq<real>, nodes: seq<string>, j: nat) returns (r: Result<seq<string>>)
    requires |abs| == 4 && WellFormedNode(n) && j < |n.linkOrder|
    requires SlotsAfter(nodeId, n.linkOrder, SlotDiffs(n, abs), j) == Ok(nodes)
    ensures r == SlotsAfter(nodeId, n.linkOrder, SlotDiffs(n, abs), j + 1)
  {
    var l := n.linkOrder[j];
    var slot, minDiff := NearestSlot(n.links[l].heading, abs);
    assert SlotDiffs(n, abs)[j] == Diffs(n.links[l].heading, abs);
    if minDiff != 0.0 {
      return Err(AssertionError);
    }
    return Ok(nodes[slot.value := l]);
  }

  /** The loop of `move` that makes the observation headings absolute. */
  method ToAbsolute(hs: seq<real>, cur: real) returns (abs: seq<real>)
    ensures abs == Absolute(hs, cur)
  {
    abs := hs;
    var i := 0;
    while i < |hs|
      invariant 0 <= i <= |hs| && |abs| == |hs|
      invariant forall k :: 0 <= k < |hs| ==> abs[k] == if k < i then RealMod(hs[k] + cur, 360.0) else hs[k]
    {
      abs := abs[i := RealMod(abs[i] + cur, 360.0)];
      i := i + 1;
    }
  }

  /** Turning a heading into an ego-centric one and back gives it back. */
  lemma EgoRoundTrip(h: real, cur: real)
    requires 0.0 <= h < 360.0
    ensures RealMod(RealMod(h - cur, 360.0) + cur, 360.0) == h
  {
    var x := h - cur;
    var q := (x / 360.0).Floor;
    var e := RealMod(x, 360.0);
    assert e == x - 360.0 * (q as real);
    ModUnique(e + cur, 360.0, -q, h);
  }

  /** Distinct headings on the circle have distinct ego-centric headings. */
  lemma DistinctEgos(hs: seq<real>, cur: real)
    requires Distinct(hs) && forall i :: 0 <= i < |hs| ==> 0.0 <= hs[i] < 360.0
    ensures NoDup(Egos(hs, cur))
  {
    var egos := Egos(hs, cur);
    forall i, j | 0 <= i < j < |egos|
      ensures egos[i] != egos[j]
    {
      EgoRoundTrip(hs[i], cur);
      EgoRoundTrip(hs[j], cur);
    }
    DistinctNoDup(egos);
  }

  lemma {:induction false} DistinctNoDup(s: seq<real>)
    requires Distinct(s)
    ensures NoDup(s)
  {
    if s != [] {
      var t := s[1..];
      assert s == [s[0]] + t;
      assert Distinct(t);
      DistinctNoDup(t);
      assert s[0] !in t;
      forall v
        ensures multiset(s)[v] <= 1
      {
        assert multiset(s)[v] == multiset{s[0]}[v] + multiset(t)[v];
      }
    }
  }

  /** A node `move` can always handle: one to four links, with distinct
      headings in [0, 360). */
  ghost predicate Regular(n: Node) {
    WellFormedNode(n) && 1 <= |n.linkOrder| <= 4 &&
    Distinct(LinkHeadings(n)) &&
    forall i :: 0 <= i < |n.linkOrder| ==> 0.0 <= LinkHeadings(n)[i] < 360.0
  }

  /** Every link heading of a regular node reappears among the absolute
      observation headings. */
  lemma LinksHaveSlots(n: Node, cur: real, sorted: seq<real>, obs: seq<real>)
    requires Regular(n)
    requires multiset(Egos(LinkHeadings(n), cur)) <= multiset(sorted)
    requires forall v :: v in sorted ==> v in obs
    ensures forall l :: l in n.links ==> HasSlot(n.links[l].heading, Absolute(obs, cur))
  {
    var hs := LinkHeadings(n);
    var egos := Egos(hs, cur);
    var abs := Absolute(obs, cur);
    forall l | l in n.links
      ensures HasSlot(n.links[l].heading, abs)
    {
      var k :| 0 <= k < |n.linkOrder| && n.linkOrder[k] == l;
      var h := hs[k];
      assert egos[k] in multiset(egos);
      assert egos[k] in sorted;
      var i :| 0 <= i < |obs| && obs[i] == egos[k];
      EgoRoundTrip(h, cur);
      assert abs[i] == h;
      assert HeadingDiff(h, abs[i]) == 0.0;
    }
  }

  /** The final rotation keeps every heading. */
  lemma RotateKeeps(h: seq<real>)
    requires |h| == 4
    ensures forall v :: v in h ==> v in Rotate(h)
  {
    forall v | v in h
      ensures v in Rotate(h)
    {
      var i :| 0 <= i < 4 && h[i] == v;
      if Rotate(h) != h {
        assert Rotate(h) == [h[3]] + h[..3];
        assert i == 3 || Rotate(h)[i + 1] == v;
      }
    }
  }

  /** How many of the requested views come from the cache. */
  function Hits(hs: seq<real>, cached: real -> bool): (r: nat)
    ensures r <= |hs|
  {
    if hs == [] then 0 else Hits(hs[..|hs| - 1], cached) + (if cached(hs[|hs| - 1]) then 1 else 0)
  }

  /** The outcome of `NaviEnv.step` apart from the observation: reward 1
      and done on reaching the target, -0.1 when the agent did not move,
      0 otherwise. */
  datatype StepInfo = StepInfo(observation: seq<real>, reward: real, done: bool, reason: Option<string>,
                               cacheHit: nat, cacheMiss: nat, hitRate: real)

  function Reward(current: string, next: string, target: string): (r: (real, bool, Option<string>))
    ensures r.1 <==> next == target
    ensures r.0 == 1.0 <==> next == target
    ensures r.0 < 0.0 <==> next != target && next == current
    ensures r.0 == 0.0 <==> next != target && next != current
  {
    if next == target then (1.0, true, Some("Target reached"))
    else if next == current then (-0.1, false, Some("No link in the instructed direction"))
    else (0.0, false, None)
  }

  /** What `get_observation` at `nodeId` returns when the agent faces
      `heading`: nothing for an unknown key, otherwise the node's
      observation headings made absolute. */
  function ObservationAt(g: Graph, nodeId: string, heading: real): (r: Result<seq<real>>)
    requires WellFormed(g)
    ensures r.Ok? ==> |r.value| == if nodeId in g.nodes then 4 else 0
  {
    if nodeId !in g.nodes then Ok([])
    else
      var o := ObservationOf(LinkHeadings(g.nodes[nodeId]), heading);
      if o.Err? then Err(o.error) else Ok(Absolute(o.value, heading))
  }

  /** Where `move` at `nodeId`, facing `heading`, takes the agent and which
      heading it then faces: an unknown key stays put; otherwise the node
      at slot `action` of the node's action slots, facing that slot's
      absolute heading. */
  function MoveOf(g: Graph, nodeId: string, heading: real, action: int): (r: Result<(string, real)>)
    requires WellFormed(g)
  {
    if nodeId !in g.nodes then Ok((nodeId, heading))
    else
      var n := g.nodes[nodeId];
      var o := ObservationOf(LinkHeadings(n), heading);
      if o.Err? then Err(o.error)
      else
        var abs := Absolute(o.value, heading);
        var slots := ActionSlots(nodeId, n, abs);
        if slots.Err? then Err(slots.error)
        else match PyIndex(4, action)
          case None => Err(IndexError)
          case Some(i) => Ok((slots.value[i], abs[i]))
  }

  /** The computation of `move` at a node of the graph: the node the
      agent moves to and the heading it then faces. */
  method Turn(g: Graph, nodeId: string, heading: real, action: int) returns (r: Result<(string, real)>, ghost abs: seq<real>)
    requires WellFormed(g) && nodeId in g.nodes
    ensures r == MoveOf(g, nodeId, heading, action)
    ensures |g.nodes[nodeId].links| == 0 ==> r == Err(IndexError)
    ensures !(-4 <= action < 4) ==> r.Err?
    ensures r.Ok? ==>
      |abs| == 4 && PyIndex(4, action).Some? && r.value.1 == abs[PyIndex(4, action).value] &&
      (r.value.0 == nodeId ||
       (r.value.0 in g.nodes[nodeId].links && HeadingDiff(g.nodes[nodeId].links[r.value.0].heading, r.value.1) == 0.0))
    ensures Regular(g.nodes[nodeId]) && -4 <= action < 4 ==> r.Ok?
  {
    abs := [];
    var n := g.nodes[nodeId];
    var hs := LinkHeadings(n);
    if Regular(n) {
      DistinctEgos(hs, heading);
    }
    NoLinksNoOrder(n);
    var obs, sorted := ObservationHeadings(hs, heading);
    if obs.Err? {
      return Err(obs.error), abs;
    }
    var absolute := ToAbsolute(obs.value, heading);
    abs := absolute;
    if Regular(n) {
      RotateKeeps(sorted);
      LinksHaveSlots(n, heading, sorted, obs.value);
    }
    var nodes := ActionNodes(nodeId, n, absolute);
    ActionSlotsMeaning(nodeId, n, absolute);
    if nodes.Err? {
      return Err(nodes.error), abs;
    }
    var index := PyIndex(4, action);
    if index.None? {
      return Err(IndexError), abs;
    }
    return Ok((nodes.value[index.value], absolute[index.value])), abs;
  }

  class NaviMap {
    const graph: Graph
    var curHeading: real
    var cacheHit: nat
    var cacheMiss: nat

    constructor(graph: Graph)
      ensures this.graph == graph && curHeading == 0.0 && cacheHit == 0 && cacheMiss == 0
    {
      this.graph := graph;
      curHeading := 0.0;
      cacheHit := 0;
      cacheMiss := 0;
    }

    /** `get_coordinates`: None for an unknown key. */
    function GetCoordinates(key: string): (r: Option<(real, real)>)
      ensures r.None? <==> key !in graph.nodes
      ensures r.Some? ==> r.value == (graph.nodes[key].lat, graph.nodes[key].lng)
    {
      if key !in graph.nodes then None else Some((graph.nodes[key].lat, graph.nodes[key].lng))
    }

    /** `get_max_degree`: the largest number of links of a node, 0 for an
        empty graph. */
    method GetMaxDegree() returns (maxDegree: nat)
      requires WellFormed(graph)
      ensures forall k :: k in graph.nodes ==> |graph.nodes[k].links| <= maxDegree
      ensures maxDegree == 0 || exists k :: k in graph.nodes && |graph.nodes[k].links| == maxDegree
      ensures graph.nodes == map[] ==> maxDegree == 0
    {
      maxDegree := 0;
      var i := 0;
      while i < |graph.order|
        invariant 0 <= i <= |graph.order|
        invariant forall k :: 0 <= k < i ==> |graph.nodes[graph.order[k]].links| <= maxDegree
        invariant maxDegree == 0 || exists k :: k in graph.nodes && |graph.nodes[k].links| == maxDegree
      {
        var degree := |graph.nodes[graph.order[i]].links|;
        if degree > maxDegree {
          maxDegree := degree;
        }
        i := i + 1;
      }
      forall k | k in graph.nodes
        ensures |graph.nodes[k].links| <= maxDegree
      {
        var j :| 0 <= j < |graph.order| && graph.order[j] == k;
      }
    }

    /** `get_shortest_path`: a breadth-first search from the source that
        stops when the target is popped, then follows the recorded parents
        back. The parent of a key is overwritten while the key is not
        visited, so the path is a simple walk but not always a shortest one.
        The path is built front to back, which is the reversed list the
        source returns. */
    method GetShortestPath(source: string, target: string) returns (r: Result<Option<seq<string>>>)
      requires WellFormed(graph)
      ensures source !in graph.nodes || target !in graph.nodes || source == target ==> r == Ok(None)
      ensures Closed(graph) ==> r.Ok?
      ensures r.Err? ==> r.error == KeyError
      ensures r.Ok? && r.value.Some? ==>
        var p := r.value.value;
        IsWalk(graph, p) && p[0] == source && p[|p| - 1] == target && Distinct(p)
      ensures r == Ok(None) && source in graph.nodes && target in graph.nodes && source != target ==>
        !Reachable(graph, source, target)
    {
      if source !in graph.nodes || target !in graph.nodes {
        return Ok(None);
      }
      var searched, rank, found := Search(graph, source, target);
      if searched.Err? {
        return Err(searched.error);
      }
      var (visited, parent) := searched.value;
      if target !in parent {
        if source != target {
          Unreachable(graph, source, target, visited);
        }
        return Ok(None);
      }
      var path := FollowParents(graph, source, target, visited, parent, rank);
      return Ok(Some(path));
    }

    /** `get_observation`: the absolute headings at which views are
        requested; each request is a cache hit when `cached` says so. An
        unknown key observes nothing. */
    method GetObservation(nodeId: string, cached: real -> bool) returns (r: Result<seq<real>>)
      requires WellFormed(graph)
      modifies this
      ensures r == ObservationAt(graph, nodeId, curHeading)
      ensures curHeading == old(curHeading)
      ensures nodeId !in graph.nodes ==> r == Ok([]) && cacheHit == old(cacheHit) && cacheMiss == old(cacheMiss)
      ensures nodeId in graph.nodes && r.Ok? ==>
        |r.value| == 4 && cacheHit + cacheMiss == old(cacheHit) + old(cacheMiss) + 4 &&
        cacheHit == old(cacheHit) + Hits(r.value, cached)
      ensures r.Err? ==> cacheHit == old(cacheHit) && cacheMiss == old(cacheMiss)
      ensures nodeId in graph.nodes && Regular(graph.nodes[nodeId]) ==> r.Ok?
    {
      if nodeId !in graph.nodes {
        return Ok([]);
      }
      var n := graph.nodes[nodeId];
      var hs := LinkHeadings(n);
      if Regular(n) {
        DistinctEgos(hs, curHeading);
      }
      var obs, sorted := ObservationHeadings(hs, curHeading);
      if obs.Err? {
        return Err(obs.error);
      }
      var abs := Absolute(obs.value, curHeading);
      assert ObservationAt(graph, nodeId, curHeading) == Ok(abs);
      CountViews(abs, cached);
      return Ok(abs);
    }

    /** The loop of `get_observation` over the views: each is counted as
        a cache hit or a miss. */
    method CountViews(abs: seq<real>, cached: real -> bool)
      modifies this
      ensures cacheHit == old(cacheHit) + Hits(abs, cached)
      ensures cacheHit + cacheMiss == old(cacheHit) + old(cacheMiss) + |abs|
      ensures curHeading == old(curHeading)
    {
      var i := 0;
      while i < |abs|
        invariant 0 <= i <= |abs|
        invariant cacheHit == old(cacheHit) + Hits(abs[..i], cached)
        invariant cacheHit + cacheMiss == old(cacheHit) + old(cacheMiss) + i
        invariant curHeading == old(curHeading)
      {
        assert abs[..i + 1][..i] == abs[..i];
        if cached(abs[i]) {
          cacheHit := cacheHit + 1;
        } else {
          cacheMiss := cacheMiss + 1;
        }
        i := i + 1;
      }
      assert abs[..|abs|] == abs;
    }

    /** `move`: the observation headings of the node are made absolute,
        every link is put in the slot of its heading, and the agent turns
        to the slot `action` (a Python index, so -4..3) and moves to the
        link there, or stays when the slot is empty. */
    method Move(nodeId: string, action: int) returns (r: Result<string>, ghost abs: seq<real>)
      requires WellFormed(graph)
      modifies this
      ensures var m := MoveOf(graph, nodeId, old(curHeading), action);
        && (m.Err? ==> r == Err(m.error) && curHeading == old(curHeading))
        && (m.Ok? ==> r == Ok(m.value.0) && curHeading == m.value.1)
      ensures cacheHit == old(cacheHit) && cacheMiss == old(cacheMiss)
      ensures nodeId !in graph.nodes ==> r == Ok(nodeId) && curHeading == old(curHeading)
      ensures r.Err? ==> curHeading == old(curHeading)
      ensures nodeId in graph.nodes && |graph.nodes[nodeId].links| == 0 ==> r == Err(IndexError)
      ensures nodeId in graph.nodes && !(-4 <= action < 4) ==> r.Err?
      ensures nodeId in graph.nodes && r.Ok? ==>
        |abs| == 4 && PyIndex(4, action).Some? && curHeading == abs[PyIndex(4, action).value] &&
        (r.value == nodeId ||
         (r.value in graph.nodes[nodeId].links && HeadingDiff(graph.nodes[nodeId].links[r.value].heading, curHeading) == 0.0))
      ensures nodeId in graph.nodes && Regular(graph.nodes[nodeId]) && -4 <= action < 4 ==> r.Ok?
    {
      abs := [];
      if nodeId !in graph.nodes {
        return Ok(nodeId), abs;
      }
      var turned;
      turned, abs := Turn(graph, nodeId, curHeading, action);
      if turned.Err? {
        return Err(turned.error), abs;
      }
      curHeading := turned.value.1;
      return Ok(turned.value.0), abs;
    }
  }

  lemma RateBounds(hit: nat, miss: nat)
    requires hit + miss > 0
    ensures 0.0 <= hit as real / (hit + miss) as real <= 1.0
  {
    var total := (hit + miss) as real;
    assert hit as real <= total;
    assert hit as real / total * total == hit as real;
  }

  /** Every node has one to four links at distinct headings in [0, 360). */
  ghost predicate AllRegular(g: Graph) {
    forall k :: k in g.nodes ==> Regular(g.nodes[k])
  }

  /** `NaviEnv` without the map drawing: the navigation task's source and target and
      the agent's current location over a `NaviMap`. */
  class NaviEnv {
    const navMap: NaviMap
    const source: string
    const target: string
    var currentLocation: string

    /** The fields `__init__` sets before it resets: the navigation task's graph,
        source and target, with the agent at the source. */
    constructor(graph: Graph, source: string, target: string)
      ensures navMap.graph == graph && fresh(navMap)
      ensures navMap.curHeading == 0.0 && navMap.cacheHit == 0 && navMap.cacheMiss == 0
      ensures this.source == source && this.target == target && currentLocation == source
    {
      navMap := new NaviMap(graph);
      this.source := source;
      this.target := target;
      currentLocation := source;
    }

    /** `__init__`: the environment of a task, reset once, so the source has
        been observed facing heading 0 (the views counted in the cache
        counters); an error of that first reset is raised by `__init__`. */
    static method Open(graph: Graph, source: string, target: string, cached: real -> bool) returns (r: Result<NaviEnv>)
      requires WellFormed(graph)
      ensures var o := ObservationAt(graph, source, 0.0);
        && (o.Err? ==> r == Err(o.error))
        && (o.Ok? ==> r.Ok? && r.value.navMap.cacheHit == Hits(o.value, cached) &&
                      r.value.navMap.cacheHit + r.value.navMap.cacheMiss == |o.value|)
      ensures r.Ok? ==>
        fresh(r.value) && fresh(r.value.navMap) && r.value.navMap.graph == graph &&
        r.value.source == source && r.value.target == target &&
        r.value.currentLocation == source && r.value.navMap.curHeading == 0.0
    {
      var env := new NaviEnv(graph, source, target);
      var obs := env.Reset(cached);
      if obs.Err? {
        return Err(obs.error);
      }
      return Ok(env);
    }

    /** `reset`: back to the source, observed from the current heading. */
    method Reset(cached: real -> bool) returns (r: Result<seq<real>>)
      requires WellFormed(navMap.graph)
      modifies this, navMap
      ensures r == ObservationAt(navMap.graph, source, navMap.curHeading)
      ensures currentLocation == source
      ensures navMap.curHeading == old(navMap.curHeading)
      ensures r.Ok? ==> navMap.cacheHit == old(navMap.cacheHit) + Hits(r.value, cached)
      ensures source in navMap.graph.nodes && r.Ok? ==>
        |r.value| == 4 && navMap.cacheHit + navMap.cacheMiss == old(navMap.cacheHit) + old(navMap.cacheMiss) + 4
      ensures source !in navMap.graph.nodes ==> r == Ok([]) && navMap.cacheMiss == old(navMap.cacheMiss)
      ensures source in navMap.graph.nodes && Regular(navMap.graph.nodes[source]) ==> r.Ok?
    {
      currentLocation := source;
      r := navMap.GetObservation(source, cached);
    }

    /** `step`: move along `action`, score the move, and observe the new
        location. The hit rate is read after the move and before that
        observation, so it divides by zero when no view has been requested
        yet (after `Open`, only when the source is not in the graph). */
    method Step(action: int, cached: real -> bool) returns (r: Result<StepInfo>)
      requires WellFormed(navMap.graph)
      modifies this, navMap
      ensures var m := MoveOf(navMap.graph, old(currentLocation), old(navMap.curHeading), action);
        && (m.Err? ==> r == Err(m.error))
        && (r.Ok? ==> m.Ok? && currentLocation == m.value.0 && navMap.curHeading == m.value.1 &&
                      ObservationAt(navMap.graph, currentLocation, navMap.curHeading) == Ok(r.value.observation))
      ensures r.Ok? ==>
        var rw := Reward(old(currentLocation), currentLocation, target);
        && r.value.reward == rw.0 && r.value.done == rw.1 && r.value.reason == rw.2
        && r.value.cacheHit == old(navMap.cacheHit) && r.value.cacheMiss == old(navMap.cacheMiss)
        && r.value.cacheHit + r.value.cacheMiss > 0
        && r.value.hitRate == r.value.cacheHit as real / (r.value.cacheHit + r.value.cacheMiss) as real
        && 0.0 <= r.value.hitRate <= 1.0
        && navMap.cacheHit == old(navMap.cacheHit) + Hits(r.value.observation, cached)
      ensures r.Ok? ==> (r.value.done <==> currentLocation == target)
      ensures r.Ok? ==> |r.value.observation| == if currentLocation in navMap.graph.nodes then 4 else 0
      ensures r.Ok? && old(currentLocation) in navMap.graph.nodes ==>
        currentLocation == old(currentLocation) || currentLocation in navMap.graph.nodes[old(currentLocation)].links
      ensures r.Ok? && old(currentLocation) !in navMap.graph.nodes ==> currentLocation == old(currentLocation)
      ensures old(navMap.cacheHit) + old(navMap.cacheMiss) == 0 ==> r.Err?
      ensures r.Ok? && Closed(navMap.graph) && old(currentLocation) in navMap.graph.nodes ==>
        currentLocation in navMap.graph.nodes
      ensures (AllRegular(navMap.graph) && old(currentLocation) in navMap.graph.nodes && -4 <= action < 4 &&
               old(navMap.cacheHit) + old(navMap.cacheMiss) > 0) ==> r.Ok?
    {
      var next, abs := navMap.Move(currentLocation, action);
      if next.Err? {
        return Err(next.error);
      }
      var prev := currentLocation;
      currentLocation := next.value;
      r := Finish(prev, cached);
    }

    /** The rest of `step` once the agent has moved from `prev`: the reward,
        the hit rate so far, and the observation of the new location. */
    method Finish(prev: string, cached: real -> bool) returns (r: Result<StepInfo>)
      requires WellFormed(navMap.graph)
      modifies navMap
      ensures navMap.curHeading == old(navMap.curHeading)
      ensures r.Ok? ==> ObservationAt(navMap.graph, currentLocation, navMap.curHeading) == Ok(r.value.observation)
      ensures old(navMap.cacheHit) + old(navMap.cacheMiss) == 0 ==> r == Err(ZeroDivisionError)
      ensures old(navMap.cacheHit) + old(navMap.cacheMiss) > 0 ==>
        var o := ObservationAt(navMap.graph, currentLocation, navMap.curHeading);
        (o.Err? ==> r == Err(o.error)) && (o.Ok? ==> r.Ok?)
      ensures (old(navMap.cacheHit) + old(navMap.cacheMiss) > 0 &&
               (currentLocation in navMap.graph.nodes ==> Regular(navMap.graph.nodes[currentLocation]))) ==> r.Ok?
      ensures r.Ok? ==>
        var rw := Reward(prev, currentLocation, target);
        && r.value.reward == rw.0 && r.value.done == rw.1 && r.value.reason == rw.2
        && r.value.cacheHit == old(navMap.cacheHit) && r.value.cacheMiss == old(navMap.cacheMiss)
        && r.value.cacheHit + r.value.cacheMiss > 0
        && r.value.hitRate == r.value.cacheHit as real / (r.value.cacheHit + r.value.cacheMiss) as real
        && 0.0 <= r.value.hitRate <= 1.0
        && navMap.cacheHit == old(navMap.cacheHit) + Hits(r.value.observation, cached)
    {
      var rw := Reward(prev, currentLocation, target);
      var hit, miss := navMap.cacheHit, navMap.cacheMiss;
      if hit + miss == 0 {
        return Err(ZeroDivisionError);
      }
      var rate := hit as real / (hit + miss) as real;
      RateBounds(hit, miss);
      var obs := navMap.GetObservation(currentLocation, cached);
      if obs.Err? {
        return Err(obs.error);
      }
      return Ok(StepInfo(obs.value, rw.0, rw.1, rw.2, hit, miss, rate));
    }
  }
}
