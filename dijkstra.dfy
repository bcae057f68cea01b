/** `dijkstra_shortest_path` (models/outdoor/navigation/utils.py): the
    shortest route between two keys of the panorama graph, with the
    great-circle distance between the two panoramas as edge weight.

    `distances` holds only the finite distances (a key that is absent
    stands for `math.inf`), the heap is the list of (distance, key) pairs
    `heapq` manages, and `haversine` is a parameter of which only
    non-negativity is assumed. */
module Dijkstra {
  import opened Wrappers
  import opened Text
  import opened PanoGraph

  type Haversine = (real, real, real, real) -> real

  /** A heap entry: (distance, node key). */
  type Entry = (real, string)

  ghost predicate NonNegative(haversine: Haversine) {
    forall a, b, c, d :: haversine(a, b, c, d) >= 0.0
  }

  function Weight(g: Graph, haversine: Haversine, u: string, v: string): real
    requires u in g.nodes && v in g.nodes
  {
    haversine(g.nodes[u].lat, g.nodes[u].lng, g.nodes[v].lat, g.nodes[v].lng)
  }

  /** Every consecutive pair of `p` is a link of the graph whose endpoint
      is itself a key of the graph. */
  ghost predicate IsWalk(g: Graph, p: seq<string>) {
    |p| >= 1 &&
    forall i, j :: 0 <= i && j == i + 1 && j < |p| ==> Step(g, p[i], p[j])
  }

  /** `b` is a link of the graph key `a` and itself a key of the graph. */
  ghost predicate Step(g: Graph, a: string, b: string) {
    a in g.nodes && b in g.nodes[a].links && b in g.nodes
  }

  ghost predicate Connected(g: Graph, s: string, t: string) {
    exists p :: IsWalk(g, p) && p[0] == s && p[|p| - 1] == t
  }

  /** The weight of a walk: the sum of the great-circle distances of its
      steps. */
  ghost function WalkWeight(g: Graph, haversine: Haversine, p: seq<string>): real
    requires IsWalk(g, p)
    decreases |p|
  {
    if |p| == 1 then 0.0
    else
      WalkPrefix(g, p);
      WalkWeight(g, haversine, p[..|p| - 1]) + Weight(g, haversine, p[|p| - 2], p[|p| - 1])
  }

  lemma WalkPrefix(g: Graph, p: seq<string>)
    requires IsWalk(g, p) && |p| >= 2
    ensures IsWalk(g, p[..|p| - 1]) && Step(g, p[|p| - 2], p[|p| - 1])
  {
    var q := p[..|p| - 1];
    forall i, j | 0 <= i && j == i + 1 && j < |q|
      ensures Step(g, q[i], q[j])
    {
      assert q[i] == p[i] && q[j] == p[j];
    }
  }

  lemma {:induction false} WalkWeightNonNegative(g: Graph, haversine: Haversine, p: seq<string>)
    requires NonNegative(haversine) && IsWalk(g, p)
    ensures WalkWeight(g, haversine, p) >= 0.0
    decreases |p|
  {
    if |p| > 1 {
      WalkPrefix(g, p);
      WalkWeightNonNegative(g, haversine, p[..|p| - 1]);
    }
  }

  /** Putting a step in front of a walk adds the weight of that step. */
  lemma {:induction false} WeightPrepend(g: Graph, haversine: Haversine, a: string, w: seq<string>)
    requires IsWalk(g, w) && Step(g, a, w[0])
    ensures IsWalk(g, [a] + w)
    ensures WalkWeight(g, haversine, [a] + w) == Weight(g, haversine, a, w[0]) + WalkWeight(g, haversine, w)
    decreases |w|
  {
    var p := [a] + w;
    forall i, j | 0 <= i && j == i + 1 && j < |p|
      ensures Step(g, p[i], p[j])
    {
      if i > 0 {
        assert p[i] == w[i - 1] && p[j] == w[j - 1];
      }
    }
    WalkPrefix(g, p);
    if |w| == 1 {
      assert p[..|p| - 1] == [a];
    } else {
      WalkPrefix(g, w);
      var w' := w[..|w| - 1];
      WeightPrepend(g, haversine, a, w');
      assert p[..|p| - 1] == [a] + w';
    }
  }

  /** No walk from `start` to `v` weighs less than `dist[v]`. */
  ghost predicate LeastTo(g: Graph, haversine: Haversine, start: string, dist: map<string, real>, v: string) {
    v in dist &&
    forall p :: IsWalk(g, p) && p[0] == start && p[|p| - 1] == v ==> dist[v] <= WalkWeight(g, haversine, p)
  }

  /** Every finite distance of a key other than `start` is its
      predecessor's plus the weight of the link between them. */
  ghost predicate Tight(g: Graph, haversine: Haversine, start: string, dist: map<string, real>, pred: map<string, string>) {
    forall v :: v in dist && v != start && v in pred && pred[v] in dist && pred[v] in g.nodes && v in g.nodes ==>
      dist[v] == dist[pred[v]] + Weight(g, haversine, pred[v], v)
  }

  /** The loop state with its distances tied to the link weights. */
  ghost predicate Settled(g: Graph, haversine: Haversine, start: string, dist: map<string, real>,
                          pred: map<string, string>, heap: seq<Entry>, done: set<string>, rank: map<string, nat>,
                          last: real)
  {
    Inv(g, start, dist, pred, heap, done, rank, last) && Tight(g, haversine, start, dist, pred)
  }

  /** Every link of a key of `closed` has been relaxed. */
  ghost predicate Relaxed(g: Graph, haversine: Haversine, dist: map<string, real>, closed: set<string>) {
    forall u, v :: u in closed && u in dist && Step(g, u, v) ==>
      v in dist && dist[v] <= dist[u] + Weight(g, haversine, u, v)
  }

  /** The distance of every key of `closed` is final: no walk from `start`
      to it weighs less. */
  ghost predicate Lowest(g: Graph, haversine: Haversine, start: string, dist: map<string, real>, closed: set<string>) {
    forall p :: IsWalk(g, p) && p[0] == start && p[|p| - 1] in closed ==>
      p[|p| - 1] in dist && dist[p[|p| - 1]] <= WalkWeight(g, haversine, p)
  }

  /** The heart of Dijkstra's algorithm: a walk from `start` to a key not
      yet expanded weighs at least the smallest entry of the heap, because
      it leaves the expanded keys through a relaxed link to a key whose
      current entry is in the heap. */
  lemma {:induction false} FrontierBound(g: Graph, haversine: Haversine, start: string, dist: map<string, real>,
                                         heap: seq<Entry>, done: set<string>, last: real, e: Entry, p: seq<string>)
    requires NonNegative(haversine) && HeapInv(dist, heap, done, last) && start in dist && dist[start] == 0.0
    requires forall x :: x in heap ==> !EntryLess(x, e)
    requires Relaxed(g, haversine, dist, done) && Lowest(g, haversine, start, dist, done)
    requires IsWalk(g, p) && p[0] == start && p[|p| - 1] !in done
    ensures e.0 <= WalkWeight(g, haversine, p)
    decreases |p|
  {
    var x := p[|p| - 1];
    if |p| == 1 {
      assert (dist[start], start) in heap;
    } else {
      WalkPrefix(g, p);
      var q := p[..|p| - 1];
      var y := p[|p| - 2];
      assert q[|q| - 1] == y && q[0] == start;
      if y in done {
        assert dist[y] <= WalkWeight(g, haversine, q);
        assert x in dist && dist[x] <= dist[y] + Weight(g, haversine, y, x);
        assert (dist[x], x) in heap;
      } else {
        FrontierBound(g, haversine, start, dist, heap, done, last, e, q);
      }
    }
  }

  /** Python's order on (float, str) tuples. */
  predicate EntryLess(a: Entry, b: Entry) {
    a.0 < b.0 || (a.0 == b.0 && StrLess(a.1, b.1))
  }

  lemma EntryLessThrough(a: Entry, b: Entry, c: Entry)
    requires !EntryLess(a, c) && EntryLess(b, c)
    ensures !EntryLess(a, b)
  {
    if EntryLess(a, b) && a.0 == b.0 && b.0 == c.0 {
      StrLessTransitive(a.1, b.1, c.1);
      assert false;
    }
  }

  /** `heapq.heappop`: removes and returns a smallest entry. */
  method HeapPop(heap: seq<Entry>) returns (e: Entry, rest: seq<Entry>)
    requires heap != []
    ensures e in heap && multiset(heap) == multiset(rest) + multiset{e}
    ensures forall x :: x in heap ==> !EntryLess(x, e)
  {
    var best := 0;
    StrLessIrreflexive(heap[0].1);
    var j := 1;
    while j < |heap|
      invariant 1 <= j <= |heap| && 0 <= best < j
      invariant forall k :: 0 <= k < j ==> !EntryLess(heap[k], heap[best])
    {
      if EntryLess(heap[j], heap[best]) {
        forall k | 0 <= k < j
          ensures !EntryLess(heap[k], heap[j])
        {
          EntryLessThrough(heap[k], heap[j], heap[best]);
        }
        StrLessIrreflexive(heap[j].1);
        best := j;
      }
      j := j + 1;
    }
    e := heap[best];
    rest := heap[..best] + heap[best + 1..];
    assert heap == heap[..best] + [heap[best]] + heap[best + 1..];
  }

  /** The predecessor tree: every key with a finite distance other than
      `start` has a predecessor that was expanded earlier and links to it.
      `rank` numbers the expanded keys in the order of expansion. */
  ghost predicate PredTree(g: Graph, start: string, dist: map<string, real>, pred: map<string, string>,
                           done: set<string>, rank: map<string, nat>)
  {
    start in dist && dist[start] == 0.0 &&
    done <= dist.Keys && done <= g.nodes.Keys && rank.Keys == done &&
    (forall v :: v in dist && v != start ==> start in done && v in g.nodes && v in pred) &&
    (forall v {:trigger pred[v], v in dist} :: v in dist && v != start ==>
       pred[v] in done && v in g.nodes[pred[v]].links) &&
    (forall u :: u in done ==> rank[u] < |done|) &&
    (forall v {:trigger pred[v], v in done} :: v in done && v != start ==> rank[pred[v]] < rank[v])
  }

  /** The heap bookkeeping: entries never fall below the last distance
      popped, expanded keys are final and only stale entries of theirs
      remain, and each unexpanded key has exactly one current entry. */
  ghost predicate HeapInv(dist: map<string, real>, heap: seq<Entry>, done: set<string>, last: real) {
    0.0 <= last &&
    (forall x :: x in heap ==> last <= x.0 && x.1 in dist && dist[x.1] <= x.0) &&
    (forall x :: x in heap && x.1 in done ==> x.1 in dist && dist[x.1] < x.0) &&
    (forall v :: v in dist ==> multiset(heap)[(dist[v], v)] <= 1) &&
    (forall v :: v in dist && v !in done ==> (dist[v], v) in heap) &&
    (forall u :: u in done ==> u in dist && dist[u] <= last)
  }

  ghost predicate Inv(g: Graph, start: string, dist: map<string, real>, pred: map<string, string>,
                      heap: seq<Entry>, done: set<string>, rank: map<string, nat>, last: real)
  {
    PredTree(g, start, dist, pred, done, rank) && HeapInv(dist, heap, done, last)
  }

  /** Every graph neighbour of a key in `closed` has a finite distance. */
  ghost predicate Explored(g: Graph, dist: map<string, real>, closed: set<string>) {
    forall u, v :: u in closed && u in g.nodes && v in g.nodes[u].links && v in g.nodes ==> v in dist
  }

  /** What `heappop` leaves: every remaining entry was in the heap and
      is no smaller than the popped one. */
  lemma PoppedRest(heap: seq<Entry>, e: Entry, rest: seq<Entry>)
    requires multiset(heap) == multiset(rest) + multiset{e}
    requires forall x :: x in heap ==> !EntryLess(x, e)
    ensures forall x :: x in rest ==> x in heap && e.0 <= x.0
  {
    forall x | x in rest
      ensures x in heap
    {
      assert x in multiset(rest);
      assert multiset(heap)[x] >= 1;
    }
  }

  /** A stale entry (line 380) is dropped and nothing else changes. */
  lemma PopStale(dist: map<string, real>, heap: seq<Entry>, done: set<string>, last: real, e: Entry, rest: seq<Entry>)
    requires HeapInv(dist, heap, done, last)
    requires e in heap && multiset(heap) == multiset(rest) + multiset{e}
    requires forall x :: x in heap ==> !EntryLess(x, e)
    requires e.1 in dist && e.0 > dist[e.1]
    ensures HeapInv(dist, rest, done, e.0)
  {
    PoppedRest(heap, e, rest);
    forall v | v in dist && v !in done
      ensures (dist[v], v) in rest
    {
      assert (dist[v], v) != e;
      assert (dist[v], v) in multiset(heap);
    }
  }

  /** A current entry is popped: its key was never expanded before, and
      marking it expanded keeps the heap bookkeeping. */
  lemma PopExpandHeap(dist: map<string, real>, heap: seq<Entry>, done: set<string>, last: real, e: Entry, rest: seq<Entry>)
    requires HeapInv(dist, heap, done, last)
    requires e in heap && multiset(heap) == multiset(rest) + multiset{e}
    requires forall x :: x in heap ==> !EntryLess(x, e)
    requires e.1 in dist && e.0 <= dist[e.1]
    ensures e.1 !in done && e.0 == dist[e.1]
    ensures HeapInv(dist, rest, done + {e.1}, e.0)
  {
    var u := e.1;
    assert e.0 == dist[u];
    assert multiset(heap)[e] <= 1;
    assert multiset(rest)[e] == 0;
    PoppedRest(heap, e, rest);
    forall x | x in rest && x.1 in done + {u}
      ensures x.1 in dist && dist[x.1] < x.0
    {
      if x.1 == u {
        assert x in multiset(rest);
        assert x != e;
      }
    }
    forall v | v in dist && v !in done + {u}
      ensures (dist[v], v) in rest
    {
      assert (dist[v], v) != e;
      assert (dist[v], v) in multiset(heap);
    }
  }

  /** Marking the popped key expanded, with the next rank, keeps the
      predecessor tree. */
  lemma PopExpandTree(g: Graph, start: string, dist: map<string, real>, pred: map<string, string>,
                      done: set<string>, rank: map<string, nat>, u: string)
    requires PredTree(g, start, dist, pred, done, rank)
    requires u in dist && u in g.nodes && u !in done
    ensures PredTree(g, start, dist, pred, done + {u}, rank[u := |done|])
  {
    var rank', done' := rank[u := |done|], done + {u};
    assert done' <= dist.Keys && done' <= g.nodes.Keys && rank'.Keys == done';
    forall v | v in dist && v != start
      ensures pred[v] in done' && v in g.nodes[pred[v]].links
    {
      assert pred[v] in done;
    }
    RankExtend(start, pred, done, rank, u, done', rank');
  }

  /** Giving the newly expanded `u` the next rank keeps every rank below
      the number of expanded keys and above its predecessor's. */
  lemma RankExtend(start: string, pred: map<string, string>, done: set<string>, rank: map<string, nat>, u: string,
                   done': set<string>, rank': map<string, nat>)
    requires rank.Keys == done && u !in done && done' == done + {u} && rank' == rank[u := |done|]
    requires forall w :: w in done ==> rank[w] < |done|
    requires forall v :: v in done + {u} && v != start ==> v in pred && pred[v] in done
    requires forall v {:trigger pred[v], v in done} :: v in done && v != start ==> rank[pred[v]] < rank[v]
    ensures forall w :: w in done' ==> rank'[w] < |done'|
    ensures forall v {:trigger pred[v], v in done'} :: v in done' && v != start ==> rank'[pred[v]] < rank'[v]
  {
    assert |done'| == |done| + 1;
    forall w | w in done'
      ensures rank'[w] < |done'|
    {
      if w != u {
        assert rank'[w] == rank[w] < |done|;
      }
    }
    forall v | v in done' && v != start
      ensures rank'[pred[v]] < rank'[v]
    {
      assert pred[v] in done && pred[v] != u;
      if v != u {
        assert rank'[v] == rank[v] && rank'[pred[v]] == rank[pred[v]];
      }
    }
  }

  /** Lines 384-403 for one neighbour `v` of the expanded key `u`. */
  method Relax(g: Graph, haversine: Haversine, start: string, dist: map<string, real>, pred: map<string, string>,
               heap: seq<Entry>, ghost done: set<string>, ghost rank: map<string, nat>, ghost last: real,
               u: string, current: real, v: string)
    returns (dist': map<string, real>, pred': map<string, string>, heap': seq<Entry>)
    requires NonNegative(haversine)
    requires Settled(g, haversine, start, dist, pred, heap, done, rank, last)
    requires u in done && u in g.nodes && dist[u] == current == last
    requires v in g.nodes[u].links && v in g.nodes
    ensures Settled(g, haversine, start, dist', pred', heap', done, rank, last)
    ensures dist'.Keys == dist.Keys + {v} && Lowered(dist, dist', done)
    ensures dist'[v] <= current + Weight(g, haversine, u, v)
  {
    dist', pred', heap' := dist, pred, heap;
    var d := current + Weight(g, haversine, u, v);
    if v !in dist || d < dist[v] {
      assert v !in done && v != start;
      RelaxTree(g, start, dist, pred, done, rank, u, v, d);
      RelaxTight(g, haversine, start, dist, pred, done, rank, u, v, d);
      RelaxHeap(dist, heap, done, last, v, d);
      dist' := dist[v := d];
      pred' := pred[v := u];
      heap' := heap + [(d, v)];
    }
  }

  /** Lowering the distance of an unexpanded key `v` and making `u` its
      predecessor keeps the predecessor tree. */
  lemma RelaxTree(g: Graph, start: string, dist: map<string, real>, pred: map<string, string>,
                  done: set<string>, rank: map<string, nat>, u: string, v: string, d: real)
    requires PredTree(g, start, dist, pred, done, rank)
    requires u in done && v in g.nodes[u].links && v in g.nodes && v !in done && v != start
    ensures PredTree(g, start, dist[v := d], pred[v := u], done, rank)
  {
    var dist', pred' := dist[v := d], pred[v := u];
    forall w | w in dist' && w != start
      ensures pred'[w] in done && w in g.nodes[pred'[w]].links
    {
      if w != v {
        assert pred'[w] == pred[w] && w in dist;
      }
    }
    forall w | w in done && w != start
      ensures rank[pred'[w]] < rank[w]
    {
      assert pred'[w] == pred[w] && w in dist;
    }
  }

  /** Lowering the distance of `v` to `dist[u]` plus the weight of the
      link keeps every finite distance equal to its predecessor's plus
      the link weight. */
  lemma RelaxTight(g: Graph, haversine: Haversine, start: string, dist: map<string, real>, pred: map<string, string>,
                   done: set<string>, rank: map<string, nat>, u: string, v: string, d: real)
    requires PredTree(g, start, dist, pred, done, rank) && Tight(g, haversine, start, dist, pred)
    requires u in done && Step(g, u, v) && v !in done && v != start
    requires d == dist[u] + Weight(g, haversine, u, v)
    ensures Tight(g, haversine, start, dist[v := d], pred[v := u])
  {
    var dist', pred' := dist[v := d], pred[v := u];
    forall w | w in dist' && w != start && w in pred' && pred'[w] in dist' && pred'[w] in g.nodes && w in g.nodes
      ensures dist'[w] == dist'[pred'[w]] + Weight(g, haversine, pred'[w], w)
    {
      if w != v {
        assert w in dist && pred'[w] == pred[w] && pred[w] in done;
      }
    }
  }

  /** Pushing `(d, v)` for an unexpanded `v` whose distance drops to `d`
      keeps the heap bookkeeping. */
  lemma RelaxHeap(dist: map<string, real>, heap: seq<Entry>, done: set<string>, last: real, v: string, d: real)
    requires HeapInv(dist, heap, done, last)
    requires v !in done && last <= d && (v !in dist || d < dist[v])
    ensures HeapInv(dist[v := d], heap + [(d, v)], done, last)
  {
    var dist', heap' := dist[v := d], heap + [(d, v)];
    assert (d, v) !in heap;
    forall w | w in dist'
      ensures multiset(heap')[(dist'[w], w)] <= 1
    {
      if w != v {
        assert (dist'[w], w) != (d, v);
      }
    }
  }

  /** Lines 384-403: relaxing every neighbour of the key `u` just popped. */
  method Expand(g: Graph, haversine: Haversine, start: string, dist: map<string, real>, pred: map<string, string>,
                heap: seq<Entry>, ghost done: set<string>, ghost rank: map<string, nat>, ghost last: real,
                ghost closed: set<string>, u: string, current: real)
    returns (dist': map<string, real>, pred': map<string, string>, heap': seq<Entry>)
    requires NonNegative(haversine)
    requires Settled(g, haversine, start, dist, pred, heap, done, rank, last)
    requires u in done && u in g.nodes && WellFormedNode(g.nodes[u]) && dist[u] == current == last
    requires done == closed + {u} && Relaxed(g, haversine, dist, closed)
    ensures Settled(g, haversine, start, dist', pred', heap', done, rank, last) && Relaxed(g, haversine, dist', done)
    ensures Lowered(dist, dist', done)
  {
    dist', pred', heap' := dist, pred, heap;
    var links := g.nodes[u].linkOrder;
    var j := 0;
    while j < |links|
      invariant 0 <= j <= |links|
      invariant Settled(g, haversine, start, dist', pred', heap', done, rank, last)
      invariant Lowered(dist, dist', done)
      invariant Covered(g, haversine, u, links[..j], dist')
    {
      dist', pred', heap' := RelaxLink(g, haversine, start, dist, dist', pred', heap', done, rank, last, u, current,
                                       links, j);
      j := j + 1;
    }
    assert links[..|links|] == links;
    LinksRelaxed(g, haversine, dist, dist', closed, u);
  }

  /** Lines 384-403 for the `j`-th listed link of `u`: a link outside the
      graph is skipped, any other is relaxed. `dist0` holds the distances
      before the first link. */
  method RelaxLink(g: Graph, haversine: Haversine, start: string, ghost dist0: map<string, real>,
                   dist: map<string, real>, pred: map<string, string>, heap: seq<Entry>, ghost done: set<string>,
                   ghost rank: map<string, nat>, ghost last: real, u: string, current: real,
                   links: seq<string>, j: nat)
    returns (dist': map<string, real>, pred': map<string, string>, heap': seq<Entry>)
    requires NonNegative(haversine)
    requires Settled(g, haversine, start, dist, pred, heap, done, rank, last)
    requires u in done && u in g.nodes && dist[u] == current == last
    requires links == g.nodes[u].linkOrder && WellFormedNode(g.nodes[u]) && j < |links|
    requires Lowered(dist0, dist, done) && Covered(g, haversine, u, links[..j], dist)
    ensures Settled(g, haversine, start, dist', pred', heap', done, rank, last)
    ensures Lowered(dist0, dist', done) && Covered(g, haversine, u, links[..j + 1], dist')
  {
    dist', pred', heap' := dist, pred, heap;
    var v := links[j];
    if v in g.nodes {
      assert v in g.nodes[u].links;
      dist', pred', heap' := Relax(g, haversine, start, dist, pred, heap, done, rank, last, u, current, v);
      LoweredTransitive(dist0, dist, dist', done);
    }
    CoveredStep(g, haversine, u, done, links, j, dist, dist');
  }

  /** No finite distance of `dist` has grown in `dist'`, and those of
      `fixed` are unchanged. */
  ghost predicate Lowered(dist: map<string, real>, dist': map<string, real>, fixed: set<string>) {
    forall w :: w in dist ==> w in dist' && dist'[w] <= dist[w] && (w in fixed ==> dist'[w] == dist[w])
  }

  lemma LoweredTransitive(a: map<string, real>, b: map<string, real>, c: map<string, real>, fixed: set<string>)
    requires Lowered(a, b, fixed) && Lowered(b, c, fixed)
    ensures Lowered(a, c, fixed)
  {
  }

  lemma CoveredStep(g: Graph, haversine: Haversine, u: string, fixed: set<string>, links: seq<string>, j: nat,
                    dist: map<string, real>, dist': map<string, real>)
    requires j < |links| && Covered(g, haversine, u, links[..j], dist)
    requires Lowered(dist, dist', fixed) && u in fixed
    requires links[j] in g.nodes ==> links[j] in dist' && dist'[links[j]] <= dist'[u] + Weight(g, haversine, u, links[j])
    ensures Covered(g, haversine, u, links[..j + 1], dist')
  {
    assert links[..j + 1] == links[..j] + [links[j]];
  }

  /** Every key of `ls` that is a graph key has a distance no larger than
      `u`'s plus the weight of the link from `u`. */
  ghost predicate Covered(g: Graph, haversine: Haversine, u: string, ls: seq<string>, dist: map<string, real>) {
    u in g.nodes && u in dist &&
    forall w :: w in ls && w in g.nodes ==> w in dist && dist[w] <= dist[u] + Weight(g, haversine, u, w)
  }

  /** Once every listed link of `u` is relaxed, `u` joins the relaxed
      keys; lowering distances of keys outside `closed` keeps the others
      relaxed. */
  lemma LinksRelaxed(g: Graph, haversine: Haversine, dist: map<string, real>, dist': map<string, real>,
                     closed: set<string>, u: string)
    requires u in g.nodes && WellFormedNode(g.nodes[u])
    requires Relaxed(g, haversine, dist, closed) && Lowered(dist, dist', closed + {u}) && closed <= dist.Keys
    requires Covered(g, haversine, u, g.nodes[u].linkOrder, dist')
    ensures Relaxed(g, haversine, dist', closed + {u})
  {
    forall a, b | a in closed + {u} && a in dist' && Step(g, a, b)
      ensures b in dist' && dist'[b] <= dist'[a] + Weight(g, haversine, a, b)
    {
      if a != u {
        assert b in dist && dist[b] <= dist[a] + Weight(g, haversine, a, b);
      } else {
        assert b in g.nodes[u].linkOrder;
      }
    }
  }

  /** Relaxed keys have all their graph neighbours at a finite distance. */
  lemma RelaxedExplored(g: Graph, haversine: Haversine, dist: map<string, real>, closed: set<string>)
    requires Relaxed(g, haversine, dist, closed) && closed <= dist.Keys
    ensures Explored(g, dist, closed)
  {
    forall a, b | a in closed && a in g.nodes && b in g.nodes[a].links && b in g.nodes
      ensures b in dist
    {
      assert Step(g, a, b);
    }
  }

  /** The key popped with the smallest entry, if not yet expanded, gets
      its final distance. */
  lemma PopLowest(g: Graph, haversine: Haversine, start: string, dist: map<string, real>, heap: seq<Entry>,
                  done: set<string>, last: real, e: Entry)
    requires NonNegative(haversine) && HeapInv(dist, heap, done, last) && start in dist && dist[start] == 0.0
    requires e in heap && forall x :: x in heap ==> !EntryLess(x, e)
    requires Relaxed(g, haversine, dist, done) && Lowest(g, haversine, start, dist, done)
    requires e.1 !in done && e.0 <= dist[e.1]
    ensures Lowest(g, haversine, start, dist, done + {e.1})
  {
    forall p | IsWalk(g, p) && p[0] == start && p[|p| - 1] in done + {e.1}
      ensures p[|p| - 1] in dist && dist[p[|p| - 1]] <= WalkWeight(g, haversine, p)
    {
      if p[|p| - 1] !in done {
        FrontierBound(g, haversine, start, dist, heap, done, last, e, p);
      }
    }
  }

  /** The target, when popped, has its least distance. */
  lemma PopTarget(g: Graph, haversine: Haversine, start: string, dist: map<string, real>, heap: seq<Entry>,
                  done: set<string>, last: real, e: Entry)
    requires NonNegative(haversine) && HeapInv(dist, heap, done, last) && start in dist && dist[start] == 0.0
    requires e in heap && forall x :: x in heap ==> !EntryLess(x, e)
    requires Relaxed(g, haversine, dist, done) && Lowest(g, haversine, start, dist, done)
    ensures LeastTo(g, haversine, start, dist, e.1)
  {
    forall p | IsWalk(g, p) && p[0] == start && p[|p| - 1] == e.1
      ensures dist[e.1] <= WalkWeight(g, haversine, p)
    {
      if e.1 !in done {
        FrontierBound(g, haversine, start, dist, heap, done, last, e, p);
      }
    }
  }

  /** Following `pred` from an expanded or finite key reaches `start`;
      the measure is the rank of the key. */
  function ChainMeasure(done: set<string>, rank: map<string, nat>, node: string): nat
    requires rank.Keys == done
  {
    if node in done then rank[node] else |done|
  }

  function Reverse(s: seq<string>): (r: seq<string>)
    ensures |r| == |s| && forall i :: 0 <= i < |s| ==> r[i] == s[|s| - 1 - i]
  {
    if s == [] then [] else [s[|s| - 1]] + Reverse(s[..|s| - 1])
  }

  lemma {:induction false} WalkReaches(g: Graph, p: seq<string>, keys: set<string>)
    requires IsWalk(g, p) && p[0] in keys
    requires forall u, v :: u in keys && u in g.nodes && v in g.nodes[u].links && v in g.nodes ==> v in keys
    ensures p[|p| - 1] in keys
    decreases |p|
  {
    if |p| > 1 {
      var q := p[..|p| - 1];
      assert IsWalk(g, q);
      WalkReaches(g, q, keys);
      assert p[|p| - 2] == q[|q| - 1];
    }
  }

  /** One step back along `pred` extends the walk to the target by a link
      whose weight is the difference of the two distances. */
  lemma ChainStep(g: Graph, haversine: Haversine, start: string, target: string, dist: map<string, real>,
                  pred: map<string, string>, done: set<string>, rank: map<string, nat>, node: string, rev: seq<string>)
    requires PredTree(g, start, dist, pred, done, rank) && Tight(g, haversine, start, dist, pred)
    requires node in dist && node != start && target in dist
    requires IsWalk(g, [node] + Reverse(rev)) && ([node] + Reverse(rev))[|rev|] == target
    requires WalkWeight(g, haversine, [node] + Reverse(rev)) + dist[node] == dist[target]
    ensures pred[node] in dist && ChainMeasure(done, rank, pred[node]) < ChainMeasure(done, rank, node)
    ensures IsWalk(g, [pred[node]] + Reverse(rev + [node]))
    ensures ([pred[node]] + Reverse(rev + [node]))[|rev + [node]|] == target
    ensures WalkWeight(g, haversine, [pred[node]] + Reverse(rev + [node])) + dist[pred[node]] == dist[target]
  {
    var p := pred[node];
    var w := [node] + Reverse(rev);
    assert Reverse(rev + [node]) == w by {
      assert (rev + [node])[..|rev|] == rev;
    }
    assert p in done && p in dist && Step(g, p, w[0]);
    WeightPrepend(g, haversine, p, w);
  }

  /** The path reconstruction of lines 405-415. */
  method Reconstruct(g: Graph, ghost haversine: Haversine, start: string, target: string, dist: map<string, real>,
                     pred: map<string, string>, ghost done: set<string>, ghost rank: map<string, nat>)
    returns (path: seq<string>)
    requires PredTree(g, start, dist, pred, done, rank) && Tight(g, haversine, start, dist, pred) && target in dist
    ensures IsWalk(g, path) && path[0] == start && path[|path| - 1] == target
    ensures WalkWeight(g, haversine, path) == dist[target]
    ensures start == target ==> path == [start]
  {
    var rev: seq<string> := [];
    var node := target;
    while node != start
      invariant node in dist
      invariant IsWalk(g, [node] + Reverse(rev))
      invariant ([node] + Reverse(rev))[|rev|] == target
      invariant WalkWeight(g, haversine, [node] + Reverse(rev)) + dist[node] == dist[target]
      invariant rev == [] ==> node == target
      invariant rev != [] ==> target != start
      decreases ChainMeasure(done, rank, node)
    {
      ChainStep(g, haversine, start, target, dist, pred, done, rank, node, rev);
      rev := rev + [node];
      node := pred[node];
    }
    path := Reverse(rev + [start]);
    assert path == [start] + Reverse(rev) by {
      assert (rev + [start])[..|rev|] == rev;
    }
    if start == target {
      assert Reverse(rev) == [];
    }
  }

  /** What `dijkstra_shortest_path` returns: KeyError exactly when the
      start or the target is not a key (unless they are equal), `[start]`
      when they are equal, a walk of the graph from start to target when
      there is a path, and None exactly when the target is a key that no
      walk from start reaches. */
  ghost predicate Answers(g: Graph, start: string, target: string, r: Result<Option<seq<string>>>) {
    (r.Err? <==> start != target && (start !in g.nodes || target !in g.nodes)) &&
    (r.Err? ==> r.error == KeyError) &&
    (start == target ==> r == Ok(Some([start]))) &&
    (r.Ok? && r.value.Some? ==>
       IsWalk(g, r.value.value) && r.value.value[0] == start && r.value.value[|r.value.value| - 1] == target) &&
    (r == Ok(None) <==>
       start != target && start in g.nodes && target in g.nodes && !Connected(g, start, target))
  }

  /** A path that is returned weighs no more than any walk of the graph
      from `start` to `target`. */
  ghost predicate Shortest(g: Graph, haversine: Haversine, start: string, target: string,
                           r: Result<Option<seq<string>>>)
  {
    r.Ok? && r.value.Some? ==>
      IsWalk(g, r.value.value) &&
      forall p :: IsWalk(g, p) && p[0] == start && p[|p| - 1] == target ==>
        WalkWeight(g, haversine, r.value.value) <= WalkWeight(g, haversine, p)
  }

  /** One pass of the main loop (lines 372-403): pop an entry, then stop
      at the target, skip a stale entry, or expand the key. `failed` is
      the KeyError of line 386 for a `start` outside the graph. */
  method Iterate(g: Graph, haversine: Haversine, start: string, target: string, dist: map<string, real>,
                 pred: map<string, string>, heap: seq<Entry>, ghost done: set<string>, ghost rank: map<string, nat>,
                 ghost last: real)
    returns (dist': map<string, real>, pred': map<string, string>, heap': seq<Entry>, found: bool, failed: bool,
             ghost done': set<string>, ghost rank': map<string, nat>, ghost last': real)
    requires WellFormed(g) && NonNegative(haversine) && heap != []
    requires Inv(g, start, dist, pred, heap, done, rank, last) && Tight(g, haversine, start, dist, pred)
    requires Relaxed(g, haversine, dist, done) && Lowest(g, haversine, start, dist, done)
    ensures failed ==> start !in g.nodes && start != target
    ensures !failed ==> PredTree(g, start, dist', pred', done', rank') && Tight(g, haversine, start, dist', pred')
    ensures !failed && found ==> LeastTo(g, haversine, start, dist', target)
    ensures !failed && !found ==> HeapInv(dist', heap', done', last')
    ensures !failed && !found ==> Relaxed(g, haversine, dist', done') && Lowest(g, haversine, start, dist', done')
    ensures !failed ==>
      |g.nodes.Keys - done'| < |g.nodes.Keys - done| ||
      (|g.nodes.Keys - done'| == |g.nodes.Keys - done| && |heap'| < |heap|)
  {
    var e, rest := HeapPop(heap);
    assert |rest| < |heap| by {
      assert |multiset(heap)| == |multiset(rest)| + 1;
    }
    var current, u := e.0, e.1;
    dist', pred', heap', found, failed := dist, pred, rest, false, false;
    done', rank', last' := done, rank, last;
    if u == target {
      PopTarget(g, haversine, start, dist, heap, done, last, e);
      found := true;
    } else if current > dist[u] {
      PopStale(dist, heap, done, last, e, rest);
      last' := current;
    } else if u !in g.nodes {
      failed := true;
    } else {
      PopExpandHeap(dist, heap, done, last, e, rest);
      PopExpandTree(g, start, dist, pred, done, rank, u);
      PopLowest(g, haversine, start, dist, heap, done, last, e);
      assert g.nodes.Keys - (done + {u}) < g.nodes.Keys - done;
      done', rank', last' := done + {u}, rank[u := |done|], current;
      dist', pred', heap' := Expand(g, haversine, start, dist, pred, rest, done', rank', last', done, u, current);
      LowestKept(g, haversine, start, dist, dist', done');
    }
  }

  /** Changing no distance of `closed` keeps those distances final. */
  lemma LowestKept(g: Graph, haversine: Haversine, start: string, dist: map<string, real>, dist': map<string, real>,
                   closed: set<string>)
    requires Lowest(g, haversine, start, dist, closed) && closed <= dist.Keys && Lowered(dist, dist', closed)
    ensures Lowest(g, haversine, start, dist', closed)
  {
  }

  /** Lines 405-416, once the loop has stopped: either at the target, or
      with the heap exhausted, when every finite key has been expanded. */
  method Conclude(g: Graph, ghost haversine: Haversine, start: string, target: string, dist: map<string, real>,
                  pred: map<string, string>, ghost done: set<string>, ghost rank: map<string, nat>,
                  ghost exhausted: bool)
    returns (r: Result<Option<seq<string>>>)
    requires PredTree(g, start, dist, pred, done, rank) && Tight(g, haversine, start, dist, pred)
    requires exhausted ==> dist.Keys <= done && Relaxed(g, haversine, dist, done)
    requires target in dist ==> LeastTo(g, haversine, start, dist, target)
    requires !exhausted ==> target in dist
    ensures Answers(g, start, target, r) && Shortest(g, haversine, start, target, r)
  {
    if target !in dist {
      RelaxedExplored(g, haversine, dist, done);
      WalkClosed(g, start, target, dist, done);
      if target in g.nodes {
        return Ok(None);
      }
      return Err(KeyError);
    }
    var path := Reconstruct(g, haversine, start, target, dist, pred, done, rank);
    assert Connected(g, start, target) by {
      assert IsWalk(g, path) && path[0] == start && path[|path| - 1] == target;
    }
    return Ok(Some(path));
  }

  /** The whole of `dijkstra_shortest_path`. KeyError is raised for a
      `start` outside the graph once it is expanded, and for a `target`
      outside the graph at the final `distances[target]`; None means the
      target is a key that no walk from `start` reaches. */
  method DijkstraShortestPath(g: Graph, start: string, target: string, haversine: Haversine)
    returns (r: Result<Option<seq<string>>>)
    requires WellFormed(g) && NonNegative(haversine)
    ensures Answers(g, start, target, r) && Shortest(g, haversine, start, target, r)
  {
    var dist: map<string, real> := map[start := 0.0];
    var pred: map<string, string> := map[];
    var heap: seq<Entry> := [(0.0, start)];
    ghost var done: set<string> := {};
    ghost var rank: map<string, nat> := map[];
    ghost var last := 0.0;
    var found := false;
    InitInv(g, haversine, start);

    while heap != [] && !found
      invariant PredTree(g, start, dist, pred, done, rank)
      invariant Tight(g, haversine, start, dist, pred)
      invariant !found ==> HeapInv(dist, heap, done, last)
      invariant !found ==> Relaxed(g, haversine, dist, done) && Lowest(g, haversine, start, dist, done)
      invariant found ==> LeastTo(g, haversine, start, dist, target)
      decreases |g.nodes.Keys - done|, |heap|
    {
      var failed;
      dist, pred, heap, found, failed, done, rank, last :=
        Iterate(g, haversine, start, target, dist, pred, heap, done, rank, last);
      if failed {
        StartMissing(g, start, target);
        return Err(KeyError);
      }
    }
    if !found {
      Exhausted(dist, heap, done, last);
      ExpandedLeast(g, haversine, start, dist, done, target);
    }
    r := Conclude(g, haversine, start, target, dist, pred, done, rank, !found);
  }

  /** The state before the loop: only `start`, at distance 0, queued. */
  lemma InitInv(g: Graph, haversine: Haversine, start: string)
    ensures PredTree(g, start, map[start := 0.0], map[], {}, map[])
    ensures HeapInv(map[start := 0.0], [(0.0, start)], {}, 0.0)
    ensures Tight(g, haversine, start, map[start := 0.0], map[])
    ensures Relaxed(g, haversine, map[start := 0.0], {}) && Lowest(g, haversine, start, map[start := 0.0], {})
  {
  }

  /** With the heap empty, every key with a finite distance was expanded. */
  lemma Exhausted(dist: map<string, real>, heap: seq<Entry>, done: set<string>, last: real)
    requires HeapInv(dist, heap, done, last) && heap == []
    ensures dist.Keys <= done
  {
  }

  /** An expanded target has its least distance. */
  lemma ExpandedLeast(g: Graph, haversine: Haversine, start: string, dist: map<string, real>, done: set<string>,
                      target: string)
    requires Lowest(g, haversine, start, dist, done) && dist.Keys <= done
    ensures target in dist ==> LeastTo(g, haversine, start, dist, target)
  {
  }

  /** A `start` outside the graph, different from the target, raises. */
  lemma StartMissing(g: Graph, start: string, target: string)
    requires start !in g.nodes && start != target
    ensures Answers(g, start, target, Err(KeyError))
  {
  }

  /** When the heap runs empty every finite key is expanded, so the finite
      keys are closed under links and contain every key reachable from
      `start`. */
  lemma WalkClosed(g: Graph, start: string, target: string, dist: map<string, real>, done: set<string>)
    requires start in dist && target !in dist
    requires dist.Keys <= done && Explored(g, dist, done)
    ensures !Connected(g, start, target)
  {
    if Connected(g, start, target) {
      var p :| IsWalk(g, p) && p[0] == start && p[|p| - 1] == target;
      WalkReaches(g, p, dist.Keys);
      assert false;
    }
  }
}
