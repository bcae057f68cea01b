/** `get_panograph_around_location` (models/outdoor/navigation/utils.py):
    a breadth-first crawl of Street View panoramas around a seed location.

    The remote services become parameters: `token` is the session token
    (None when the token request fails), `metaAt` looks panorama metadata
    up by location, `nearestRoad` snaps a location to the nearest road,
    and `metaById` is the finite set of panoramas the service knows, keyed
    by the pano id a link names. `distance` is the great-circle distance
    between two panoramas and `repr` Python's `str` on floats. */
module Crawl {
  import opened Wrappers
  import opened PanoGraph

  type Provider = map<string, PanoMeta>

  /** The (key, pano id) pairs of the panoramas the service returns that
      lie within `threshold` of the seed. */
  ghost function Near(metaById: Provider, repr: real -> string, distance: (PanoMeta, PanoMeta) -> real,
                      seed: PanoMeta, threshold: real): set<(string, string)>
  {
    set id | id in metaById && distance(seed, metaById[id]) <= threshold ::
      (MetaKey(repr, metaById[id]), metaById[id].panoId)
  }

  /** Every key a crawl from `seed` can produce. */
  ghost function Reachable(metaById: Provider, repr: real -> string, seed: PanoMeta): set<string> {
    {MetaKey(repr, seed)} + set id | id in metaById :: MetaKey(repr, metaById[id])
  }

  /** What the crawl guarantees of the graph it returns. */
  ghost predicate CrawlResult(g: Graph, metaById: Provider, repr: real -> string,
                              distance: (PanoMeta, PanoMeta) -> real, seed: PanoMeta, threshold: real)
  {
    WellFormed(g) && CrawlShape(g, metaById, repr, distance, seed, threshold)
  }

  /** The result properties other than well-formedness. */
  ghost predicate CrawlShape(g: Graph, metaById: Provider, repr: real -> string,
                             distance: (PanoMeta, PanoMeta) -> real, seed: PanoMeta, threshold: real)
  {
    var root := MetaKey(repr, seed);
    var near := Near(metaById, repr, distance, seed, threshold);
    Closed(g) &&
    root in g.nodes &&
    g.nodes[root].googlePanoId == seed.panoId &&
    g.nodes[root].lat == seed.lat && g.nodes[root].lng == seed.lng &&
    (forall k :: k in g.nodes ==> PanoKey(repr, g.nodes[k].lat, g.nodes[k].lng) == k) &&
    (forall k :: k in g.nodes && k != root ==> (k, g.nodes[k].googlePanoId) in near) &&
    (forall k, l :: k in g.nodes && l in g.nodes[k].links ==> (l, g.nodes[k].links[l].googlePanoId) in near)
  }

  function NewNode(m: PanoMeta): Node {
    Node(m.panoId, m.lat, m.lng, map[], [])
  }

  function QueueKeys(repr: real -> string, queue: seq<PanoMeta>): (r: seq<string>)
    ensures |r| == |queue| && forall i :: 0 <= i < |queue| ==> r[i] == MetaKey(repr, queue[i])
  {
    seq(|queue|, i requires 0 <= i < |queue| => MetaKey(repr, queue[i]))
  }

  /** The loop invariant of the crawl: the result properties, plus the
      bookkeeping of `visited` and `queue`. A key is queued once, when it
      first enters the graph; a node gets links only while it is expanded. */
  ghost predicate CrawlInv(g: Graph, queue: seq<PanoMeta>, visited: set<string>, metaById: Provider,
                           repr: real -> string, distance: (PanoMeta, PanoMeta) -> real, seed: PanoMeta,
                           threshold: real)
  {
    CrawlResult(g, metaById, repr, distance, seed, threshold) &&
    g.nodes.Keys <= Reachable(metaById, repr, seed) && visited <= g.nodes.Keys &&
    (forall k :: k in g.nodes && k !in visited ==> g.nodes[k].links == map[]) &&
    (forall i :: 0 <= i < |queue| ==> MetaKey(repr, queue[i]) in g.nodes && MetaKey(repr, queue[i]) !in visited) &&
    Distinct(QueueKeys(repr, queue))
  }

  /** The keys of the queued panoramas. */
  ghost function Pending(repr: real -> string, queue: seq<PanoMeta>): set<string> {
    set i | 0 <= i < |queue| :: MetaKey(repr, queue[i])
  }

  /** `metas` names, for every node, the panorama metadata it was made
      from: the seed for the root, and a panorama the service returned for
      every other node. */
  ghost predicate Sources(g: Graph, metas: map<string, PanoMeta>, metaById: Provider, repr: real -> string,
                          seed: PanoMeta)
  {
    var root := MetaKey(repr, seed);
    metas.Keys == g.nodes.Keys && root in metas && metas[root] == seed &&
    forall k :: k in metas ==>
      MetaKey(repr, metas[k]) == k && g.nodes[k].googlePanoId == metas[k].panoId &&
      (k != root ==> metas[k] in metaById.Values)
  }

  /** The link `link` of the panorama of `k` is recorded in the graph,
      unless the service does not know it or it lies beyond the threshold
      (the two `continue`s of lines 203-208). */
  ghost predicate Covers(g: Graph, k: string, link: MetaLink, metaById: Provider, repr: real -> string,
                         distance: (PanoMeta, PanoMeta) -> real, seed: PanoMeta, threshold: real)
  {
    link.panoId in metaById && distance(seed, metaById[link.panoId]) <= threshold ==>
      k in g.nodes && MetaKey(repr, metaById[link.panoId]) in g.nodes[k].links
  }

  /** Every link of every expanded panorama in `done` is covered. */
  ghost predicate Complete(g: Graph, metas: map<string, PanoMeta>, done: set<string>, metaById: Provider,
                           repr: real -> string, distance: (PanoMeta, PanoMeta) -> real, seed: PanoMeta,
                           threshold: real)
  {
    forall k, j :: k in done && k in metas && metas[k].links.Some? && 0 <= j < |metas[k].links.value| ==>
      Covers(g, k, metas[k].links.value[j], metaById, repr, distance, seed, threshold)
  }

  /** The crawl collected everything: every node was expanded from its
      panorama, every near link of it is recorded, and the links of a node
      are exactly those its panorama's links give, each holding the entry
      of the first link that leads to it; and every node other than the
      seed's was discovered through a recorded link. */
  ghost predicate Collected(g: Graph, metaById: Provider, repr: real -> string,
                            distance: (PanoMeta, PanoMeta) -> real, seed: PanoMeta, threshold: real)
  {
    Discovered(g, MetaKey(repr, seed)) &&
    exists metas :: Sources(g, metas, metaById, repr, seed) &&
                    Complete(g, metas, g.nodes.Keys, metaById, repr, distance, seed, threshold) &&
                    Provenance(g, metas, g.nodes.Keys, metaById, repr, distance, seed, threshold)
  }

  /** The nodes, in the order they entered the graph, start at the seed's,
      and each later one is the target of a recorded link of an earlier
      one: lines 221-224 add a node only to record the link to it. */
  ghost predicate Discovered(g: Graph, root: string) {
    |g.order| > 0 && g.order[0] == root &&
    forall i :: 0 < i < |g.order| ==> LinkedFromEarlier(g, i)
  }

  /** The `i`th node to enter the graph is the target of a recorded link
      of a node that entered before it. */
  ghost predicate LinkedFromEarlier(g: Graph, i: nat)
    requires i < |g.order|
  {
    exists j :: 0 <= j < i && g.order[j] in g.nodes && g.order[i] in g.nodes[g.order[j]].links
  }

  /** Recording a link from `currentId` to `l`, after adding `l` when it
      was new, keeps every node discovered. */
  lemma DiscoveredStep(g: Graph, g': Graph, currentId: string, l: string, root: string)
    requires Discovered(g, root) && currentId in g.order
    requires forall k :: k in g.nodes ==> k in g'.nodes && g.nodes[k].links.Keys <= g'.nodes[k].links.Keys
    requires g'.order == g.order || g'.order == g.order + [l]
    requires currentId in g'.nodes && l in g'.nodes[currentId].links
    ensures Discovered(g', root)
  {
    var n := |g.order|;
    forall i | 0 < i < |g'.order|
      ensures LinkedFromEarlier(g', i)
    {
      if i < n {
        assert LinkedFromEarlier(g, i);
        var j :| 0 <= j < i && g.order[j] in g.nodes && g.order[i] in g.nodes[g.order[j]].links;
        var k := g.order[j];
        assert g.order[i] in g.nodes[k].links.Keys;
        assert g'.order[j] == k && g'.order[i] == g.order[i];
      } else {
        var c :| 0 <= c < n && g.order[c] == currentId;
        assert g'.order[c] == currentId && g'.order[i] == l;
        assert LinkedFromEarlier(g', i);
      }
    }
  }

  /** `p` is a walk along recorded links. */
  ghost predicate Walk(g: Graph, p: seq<string>) {
    |p| > 0 && forall i :: 0 <= i < |p| - 1 ==> p[i] in g.nodes && p[i + 1] in g.nodes[p[i]].links
  }

  /** Every discovered node is reached from the seed's node by a walk
      along recorded links. */
  lemma {:induction false} DiscoveredReachable(g: Graph, root: string, i: nat)
    requires Discovered(g, root) && i < |g.order|
    ensures exists p :: Walk(g, p) && p[0] == root && p[|p| - 1] == g.order[i]
    decreases i
  {
    if i == 0 {
      assert Walk(g, [root]);
    } else {
      assert LinkedFromEarlier(g, i);
      var j :| 0 <= j < i && g.order[j] in g.nodes && g.order[i] in g.nodes[g.order[j]].links;
      DiscoveredReachable(g, root, j);
      var p :| Walk(g, p) && p[0] == root && p[|p| - 1] == g.order[j];
      var p' := p + [g.order[i]];
      assert Walk(g, p');
      assert p'[0] == root && p'[|p'| - 1] == g.order[i];
    }
  }

  /** What the crawl returns has no stray nodes: every node is the seed's,
      is the target of some node's recorded link, and is reached from the
      seed's node along recorded links. */
  lemma CollectedReachable(g: Graph, metaById: Provider, repr: real -> string,
                           distance: (PanoMeta, PanoMeta) -> real, seed: PanoMeta, threshold: real)
    requires CrawlResult(g, metaById, repr, distance, seed, threshold)
    requires Collected(g, metaById, repr, distance, seed, threshold)
    ensures forall k :: k in g.nodes && k != MetaKey(repr, seed) ==>
      exists p :: p in g.nodes && k in g.nodes[p].links
    ensures forall k :: k in g.nodes ==>
      exists p :: Walk(g, p) && p[0] == MetaKey(repr, seed) && p[|p| - 1] == k
  {
    var root := MetaKey(repr, seed);
    forall k | k in g.nodes
      ensures k != root ==> exists p :: p in g.nodes && k in g.nodes[p].links
      ensures exists p :: Walk(g, p) && p[0] == root && p[|p| - 1] == k
    {
      var i :| 0 <= i < |g.order| && g.order[i] == k;
      DiscoveredReachable(g, root, i);
      if k != root {
        assert i != 0 && LinkedFromEarlier(g, i);
        var j :| 0 <= j < i && g.order[j] in g.nodes && g.order[i] in g.nodes[g.order[j]].links;
      }
    }
  }

  /** The link `link` leads to the node `l`: the service knows its
      panorama, within the threshold, and that panorama's key is `l`. */
  ghost predicate LeadsTo(link: MetaLink, l: string, metaById: Provider, repr: real -> string,
                          distance: (PanoMeta, PanoMeta) -> real, seed: PanoMeta, threshold: real)
  {
    link.panoId in metaById && distance(seed, metaById[link.panoId]) <= threshold &&
    MetaKey(repr, metaById[link.panoId]) == l
  }

  /** The entry lines 212-217 store for `link`: the target's pano id with
      the link's own heading, text and elevation. */
  function EdgeOf(metaById: Provider, link: MetaLink): Edge
    requires link.panoId in metaById
  {
    Edge(metaById[link.panoId].panoId, link.heading, link.text, link.elevation)
  }

  /** The entry for `l` after the first `n` links `links` of one
      panorama: that of the first link leading to `l`, since a later one
      never overwrites it (line 211); None when none leads to `l`. */
  ghost function FirstEntry(links: seq<MetaLink>, n: nat, l: string, metaById: Provider, repr: real -> string,
                            distance: (PanoMeta, PanoMeta) -> real, seed: PanoMeta, threshold: real): Option<Edge>
    requires n <= |links|
  {
    if n == 0 then None
    else
      var e := FirstEntry(links, n - 1, l, metaById, repr, distance, seed, threshold);
      if e.Some? then e
      else if LeadsTo(links[n - 1], l, metaById, repr, distance, seed, threshold) then
        Some(EdgeOf(metaById, links[n - 1]))
      else None
  }

  /** The links of `node` are exactly the entries the first `n` links
      `links` give. */
  ghost predicate Recorded(node: Node, links: seq<MetaLink>, n: nat, metaById: Provider, repr: real -> string,
                           distance: (PanoMeta, PanoMeta) -> real, seed: PanoMeta, threshold: real)
  {
    n <= |links| &&
    forall l :: FirstEntry(links, n, l, metaById, repr, distance, seed, threshold) ==
                (if l in node.links then Some(node.links[l]) else None)
  }

  /** The links of a panorama; one without a "links" field gives none
      (the `continue` of lines 196-198). */
  function LinksOf(m: PanoMeta): seq<MetaLink> {
    if m.links.Some? then m.links.value else []
  }

  /** Every node in `done` holds exactly the entries of its panorama's
      links. */
  ghost predicate Provenance(g: Graph, metas: map<string, PanoMeta>, done: set<string>, metaById: Provider,
                             repr: real -> string, distance: (PanoMeta, PanoMeta) -> real, seed: PanoMeta,
                             threshold: real)
  {
    forall k :: k in done && k in g.nodes && k in metas ==>
      Recorded(g.nodes[k], LinksOf(metas[k]), |LinksOf(metas[k])|, metaById, repr, distance, seed, threshold)
  }

  /** What `FirstEntry` means: there is an entry for `l` iff some link
      leads to `l`, and it is built from the first such link. */
  lemma {:induction false} FirstEntryIsFirst(links: seq<MetaLink>, n: nat, l: string, metaById: Provider,
                                             repr: real -> string, distance: (PanoMeta, PanoMeta) -> real,
                                             seed: PanoMeta, threshold: real)
    requires n <= |links|
    ensures FirstEntry(links, n, l, metaById, repr, distance, seed, threshold).Some? <==>
            exists j :: 0 <= j < n && LeadsTo(links[j], l, metaById, repr, distance, seed, threshold)
    ensures forall j :: 0 <= j < n && LeadsTo(links[j], l, metaById, repr, distance, seed, threshold) &&
                        (forall i :: 0 <= i < j ==> !LeadsTo(links[i], l, metaById, repr, distance, seed, threshold)) ==>
                        FirstEntry(links, n, l, metaById, repr, distance, seed, threshold) == Some(EdgeOf(metaById, links[j]))
  {
    if n > 0 {
      FirstEntryIsFirst(links, n - 1, l, metaById, repr, distance, seed, threshold);
    }
  }

  /** Every node other than `k` keeps its links. */
  ghost predicate Untouched(g: Graph, g': Graph, k: string) {
    forall j :: j in g.nodes && j != k ==> j in g'.nodes && g'.nodes[j].links == g.nodes[j].links
  }

  lemma UntouchedTransitive(g: Graph, g': Graph, g'': Graph, k: string)
    requires Untouched(g, g', k) && Untouched(g', g'', k)
    ensures Untouched(g, g'', k)
  {
  }

  /** A node without links holds what no links give. */
  lemma RecordedNone(node: Node, links: seq<MetaLink>, metaById: Provider, repr: real -> string,
                     distance: (PanoMeta, PanoMeta) -> real, seed: PanoMeta, threshold: real)
    requires node.links == map[]
    ensures Recorded(node, links, 0, metaById, repr, distance, seed, threshold)
  {
  }

  /** A link the service does not know, or beyond the threshold, is
      skipped and changes no entry. */
  lemma RecordedSkip(node: Node, links: seq<MetaLink>, j: nat, metaById: Provider, repr: real -> string,
                     distance: (PanoMeta, PanoMeta) -> real, seed: PanoMeta, threshold: real)
    requires Recorded(node, links, j, metaById, repr, distance, seed, threshold) && j < |links|
    requires links[j].panoId !in metaById || distance(seed, metaById[links[j].panoId]) > threshold
    ensures Recorded(node, links, j + 1, metaById, repr, distance, seed, threshold)
  {
    forall l
      ensures FirstEntry(links, j + 1, l, metaById, repr, distance, seed, threshold) ==
              (if l in node.links then Some(node.links[l]) else None)
    {
      assert FirstEntry(links, j, l, metaById, repr, distance, seed, threshold) ==
             (if l in node.links then Some(node.links[l]) else None);
    }
  }

  /** A near link records its entry unless its target already has one. */
  lemma RecordedLink(node: Node, node': Node, links: seq<MetaLink>, j: nat, metaById: Provider,
                     repr: real -> string, distance: (PanoMeta, PanoMeta) -> real, seed: PanoMeta, threshold: real)
    requires Recorded(node, links, j, metaById, repr, distance, seed, threshold) && j < |links|
    requires links[j].panoId in metaById && distance(seed, metaById[links[j].panoId]) <= threshold
    requires var key := MetaKey(repr, metaById[links[j].panoId]);
      node'.links == if key in node.links then node.links else node.links[key := EdgeOf(metaById, links[j])]
    ensures Recorded(node', links, j + 1, metaById, repr, distance, seed, threshold)
  {
    forall l
      ensures FirstEntry(links, j + 1, l, metaById, repr, distance, seed, threshold) ==
              (if l in node'.links then Some(node'.links[l]) else None)
    {
      assert FirstEntry(links, j, l, metaById, repr, distance, seed, threshold) ==
             (if l in node.links then Some(node.links[l]) else None);
    }
  }

  /** Expanding `k` keeps the other expanded nodes as they were and adds
      `k` with the entries of its panorama's links. */
  lemma ProvenanceAdd(g: Graph, g': Graph, metas: map<string, PanoMeta>, metas': map<string, PanoMeta>,
                      done: set<string>, k: string, metaById: Provider, repr: real -> string,
                      distance: (PanoMeta, PanoMeta) -> real, seed: PanoMeta, threshold: real)
    requires Provenance(g, metas, done, metaById, repr, distance, seed, threshold)
    requires Grows(g, g', metas, metas') && Untouched(g, g', k) && done <= g.nodes.Keys && done <= metas.Keys
    requires k in g'.nodes && k in metas'
    requires Recorded(g'.nodes[k], LinksOf(metas'[k]), |LinksOf(metas'[k])|, metaById, repr, distance, seed, threshold)
    ensures Provenance(g', metas', done + {k}, metaById, repr, distance, seed, threshold)
  {
    forall j | j in done + {k} && j in g'.nodes && j in metas'
      ensures Recorded(g'.nodes[j], LinksOf(metas'[j]), |LinksOf(metas'[j])|, metaById, repr, distance, seed, threshold)
    {
      if j != k {
        assert Recorded(g.nodes[j], LinksOf(metas[j]), |LinksOf(metas[j])|, metaById, repr, distance, seed, threshold);
        assert g'.nodes[j].links == g.nodes[j].links;
      }
    }
  }

  /** The bookkeeping of where nodes came from: every node is expanded or
      queued, and a queued entry is the panorama of its key. */
  ghost predicate Tracked(g: Graph, queue: seq<PanoMeta>, visited: set<string>, metas: map<string, PanoMeta>,
                          metaById: Provider, repr: real -> string, seed: PanoMeta)
  {
    Sources(g, metas, metaById, repr, seed) &&
    g.nodes.Keys == visited + Pending(repr, queue) &&
    forall i :: 0 <= i < |queue| ==> MetaKey(repr, queue[i]) in metas && metas[MetaKey(repr, queue[i])] == queue[i]
  }

  /** `g'` has every node and every link of `g`, and `metas'` every entry
      of `metas`. */
  ghost predicate Grows(g: Graph, g': Graph, metas: map<string, PanoMeta>, metas': map<string, PanoMeta>) {
    (forall k :: k in g.nodes ==> k in g'.nodes && g.nodes[k].links.Keys <= g'.nodes[k].links.Keys) &&
    (forall k :: k in metas ==> k in metas' && metas'[k] == metas[k])
  }

  lemma GrowsTransitive(g: Graph, g': Graph, g'': Graph, m: map<string, PanoMeta>, m': map<string, PanoMeta>,
                        m'': map<string, PanoMeta>)
    requires Grows(g, g', m, m') && Grows(g', g'', m', m'')
    ensures Grows(g, g'', m, m'')
  {
  }

  /** Growing keeps what is already complete. */
  lemma CompleteGrows(g: Graph, g': Graph, metas: map<string, PanoMeta>, metas': map<string, PanoMeta>,
                      done: set<string>, metaById: Provider, repr: real -> string,
                      distance: (PanoMeta, PanoMeta) -> real, seed: PanoMeta, threshold: real)
    requires Complete(g, metas, done, metaById, repr, distance, seed, threshold)
    requires Grows(g, g', metas, metas') && done <= metas.Keys
    ensures Complete(g', metas', done, metaById, repr, distance, seed, threshold)
  {
    forall k, j | k in done && k in metas' && metas'[k].links.Some? && 0 <= j < |metas'[k].links.value|
      ensures Covers(g', k, metas'[k].links.value[j], metaById, repr, distance, seed, threshold)
    {
      assert Covers(g, k, metas[k].links.value[j], metaById, repr, distance, seed, threshold);
    }
  }

  /** Expanding `k` completely makes it complete. */
  lemma CompleteAdd(g: Graph, metas: map<string, PanoMeta>, done: set<string>, k: string,
                    metaById: Provider, repr: real -> string,
                    distance: (PanoMeta, PanoMeta) -> real, seed: PanoMeta, threshold: real)
    requires Complete(g, metas, done, metaById, repr, distance, seed, threshold)
    requires k in metas
    requires metas[k].links.Some? ==>
      CoveredUpTo(g, k, metas[k].links.value, |metas[k].links.value|, metaById, repr, distance, seed, threshold)
    ensures Complete(g, metas, done + {k}, metaById, repr, distance, seed, threshold)
  {
  }

  /** Popping the head of the queue moves its key from queued to expanded. */
  lemma PopTracked(g: Graph, queue: seq<PanoMeta>, visited: set<string>, metas: map<string, PanoMeta>,
                   metaById: Provider, repr: real -> string, seed: PanoMeta)
    requires Tracked(g, queue, visited, metas, metaById, repr, seed) && queue != []
    ensures metas[MetaKey(repr, queue[0])] == queue[0]
    ensures Tracked(g, queue[1..], visited + {MetaKey(repr, queue[0])}, metas, metaById, repr, seed)
  {
    assert Pending(repr, queue) == {MetaKey(repr, queue[0])} + Pending(repr, queue[1..]) by {
      forall x | x in Pending(repr, queue) ensures x in {MetaKey(repr, queue[0])} + Pending(repr, queue[1..]) {
        var i :| 0 <= i < |queue| && x == MetaKey(repr, queue[i]);
        if i > 0 {
          assert x == MetaKey(repr, queue[1..][i - 1]);
        }
      }
      forall x | x in Pending(repr, queue[1..]) ensures x in Pending(repr, queue) {
        var i :| 0 <= i < |queue[1..]| && x == MetaKey(repr, queue[1..][i]);
        assert x == MetaKey(repr, queue[i + 1]);
      }
    }
  }

  /** The queue drained: every node was expanded. */
  lemma Drained(g: Graph, visited: set<string>, metas: map<string, PanoMeta>,
                metaById: Provider, repr: real -> string, distance: (PanoMeta, PanoMeta) -> real,
                seed: PanoMeta, threshold: real)
    requires Tracked(g, [], visited, metas, metaById, repr, seed)
    requires Complete(g, metas, visited, metaById, repr, distance, seed, threshold)
    requires Provenance(g, metas, visited, metaById, repr, distance, seed, threshold)
    requires Discovered(g, MetaKey(repr, seed))
    ensures Collected(g, metaById, repr, distance, seed, threshold)
  {
    assert Pending(repr, []) == {};
    assert Sources(g, metas, metaById, repr, seed) &&
           Complete(g, metas, g.nodes.Keys, metaById, repr, distance, seed, threshold) &&
           Provenance(g, metas, g.nodes.Keys, metaById, repr, distance, seed, threshold);
  }

  /** Recording the link `currentId -> l` keeps the invariant, except that
      `l` may not be a node yet. */
  lemma AddLinkKeeps(g: Graph, queue: seq<PanoMeta>, visited: set<string>, currentId: string, l: string, e: Edge,
                     metaById: Provider, repr: real -> string, distance: (PanoMeta, PanoMeta) -> real,
                     seed: PanoMeta, threshold: real)
    requires CrawlInv(g, queue, visited, metaById, repr, distance, seed, threshold)
    requires currentId in visited && (l, e.googlePanoId) in Near(metaById, repr, distance, seed, threshold)
    requires l in g.nodes
    ensures CrawlInv(WithLink(g, currentId, l, e), queue, visited, metaById, repr, distance, seed, threshold)
  {
    var g' := WithLink(g, currentId, l, e);
    if l !in g.nodes[currentId].links {
      WithLinkResult(g, currentId, l, e, metaById, repr, distance, seed, threshold);
      forall k | k in g'.nodes && k !in visited
        ensures g'.nodes[k].links == map[]
      {
        assert k != currentId;
      }
      SameKeysKeep(g, g', queue, visited, metaById, repr, distance, seed, threshold);
    }
  }

  /** Recording a link to a nearby node keeps the result properties. */
  lemma WithLinkResult(g: Graph, currentId: string, l: string, e: Edge,
                       metaById: Provider, repr: real -> string, distance: (PanoMeta, PanoMeta) -> real,
                       seed: PanoMeta, threshold: real)
    requires CrawlResult(g, metaById, repr, distance, seed, threshold)
    requires currentId in g.nodes && l in g.nodes
    requires (l, e.googlePanoId) in Near(metaById, repr, distance, seed, threshold)
    ensures CrawlResult(WithLink(g, currentId, l, e), metaById, repr, distance, seed, threshold)
  {
    WithLinkWellFormed(g, currentId, l, e);
    WithLinkShape(g, currentId, l, e, metaById, repr, distance, seed, threshold);
  }

  lemma WithLinkShape(g: Graph, currentId: string, l: string, e: Edge,
                      metaById: Provider, repr: real -> string, distance: (PanoMeta, PanoMeta) -> real,
                      seed: PanoMeta, threshold: real)
    requires CrawlShape(g, metaById, repr, distance, seed, threshold)
    requires currentId in g.nodes && l in g.nodes
    requires (l, e.googlePanoId) in Near(metaById, repr, distance, seed, threshold)
    ensures CrawlShape(WithLink(g, currentId, l, e), metaById, repr, distance, seed, threshold)
  {
    var g' := WithLink(g, currentId, l, e);
    var near := Near(metaById, repr, distance, seed, threshold);
    forall k | k in g'.nodes
      ensures g'.nodes[k].googlePanoId == g.nodes[k].googlePanoId
      ensures g'.nodes[k].lat == g.nodes[k].lat && g'.nodes[k].lng == g.nodes[k].lng
    {
    }
    forall k, m | k in g'.nodes && m in g'.nodes[k].links
      ensures m in g'.nodes && (m, g'.nodes[k].links[m].googlePanoId) in near
    {
      if k == currentId && m != l {
        assert g'.nodes[k].links[m] == g.nodes[k].links[m];
      }
    }
  }

  /** The bookkeeping part of the invariant depends only on the keys of the
      graph and on which nodes have links. */
  lemma SameKeysKeep(g: Graph, g': Graph, queue: seq<PanoMeta>, visited: set<string>,
                     metaById: Provider, repr: real -> string, distance: (PanoMeta, PanoMeta) -> real,
                     seed: PanoMeta, threshold: real)
    requires CrawlInv(g, queue, visited, metaById, repr, distance, seed, threshold)
    requires CrawlResult(g', metaById, repr, distance, seed, threshold)
    requires g'.nodes.Keys == g.nodes.Keys
    requires forall k :: k in g'.nodes && k !in visited ==> g'.nodes[k].links == map[]
    ensures CrawlInv(g', queue, visited, metaById, repr, distance, seed, threshold)
  {
  }

  /** One pass of the inner loop (lines 200-226) for `link`, while the node
      `currentId` is expanded: afterwards the link is covered, and the
      links of `currentId` are the entries of `links` up to `link`, its
      `j`th. */
  method ProcessLink(g: Graph, queue: seq<PanoMeta>, ghost visited: set<string>, ghost metas: map<string, PanoMeta>,
                     currentId: string, ghost links: seq<MetaLink>, ghost j: nat, link: MetaLink,
                     metaById: Provider, repr: real -> string, distance: (PanoMeta, PanoMeta) -> real,
                     seed: PanoMeta, threshold: real)
    returns (g': Graph, queue': seq<PanoMeta>, ghost metas': map<string, PanoMeta>)
    requires CrawlInv(g, queue, visited, metaById, repr, distance, seed, threshold)
    requires Tracked(g, queue, visited, metas, metaById, repr, seed)
    requires currentId in visited
    requires j < |links| && links[j] == link
    requires Recorded(g.nodes[currentId], links, j, metaById, repr, distance, seed, threshold)
    requires Discovered(g, MetaKey(repr, seed))
    ensures CrawlInv(g', queue', visited, metaById, repr, distance, seed, threshold)
    ensures Tracked(g', queue', visited, metas', metaById, repr, seed)
    ensures Grows(g, g', metas, metas')
    ensures Discovered(g', MetaKey(repr, seed))
    ensures Covers(g', currentId, link, metaById, repr, distance, seed, threshold)
    ensures Untouched(g, g', currentId)
    ensures Recorded(g'.nodes[currentId], links, j + 1, metaById, repr, distance, seed, threshold)
  {
    g', queue', metas' := g, queue, metas;
    if link.panoId !in metaById {
      RecordedSkip(g.nodes[currentId], links, j, metaById, repr, distance, seed, threshold);
      return;
    }
    var panoMeta := metaById[link.panoId];
    if distance(seed, panoMeta) > threshold {
      RecordedSkip(g.nodes[currentId], links, j, metaById, repr, distance, seed, threshold);
      return;
    }
    var panoId := MetaKey(repr, panoMeta);
    var edge := Edge(panoMeta.panoId, link.heading, link.text, link.elevation);
    assert (panoId, panoMeta.panoId) in Near(metaById, repr, distance, seed, threshold);
    if panoId !in g.nodes {
      g', queue', metas' := AddNode(g, queue, visited, metas, panoMeta, metaById, repr, distance, seed, threshold);
    }
    AddLinkKeeps(g', queue', visited, currentId, panoId, edge, metaById, repr, distance, seed, threshold);
    LinkTracked(g', queue', visited, metas', currentId, panoId, edge, metaById, repr, seed);
    ghost var g0 := g';
    g' := WithLink(g', currentId, panoId, edge);
    GrowsTransitive(g, g0, g', metas, metas', metas');
    assert g0.nodes[currentId] == g.nodes[currentId];
    RecordedLink(g.nodes[currentId], g'.nodes[currentId], links, j, metaById, repr, distance, seed, threshold);
    assert currentId in g.order;
    DiscoveredStep(g, g', currentId, panoId, MetaKey(repr, seed));
  }

  /** Recording a link keeps the bookkeeping and only grows the graph. */
  lemma LinkTracked(g: Graph, queue: seq<PanoMeta>, visited: set<string>, metas: map<string, PanoMeta>,
                    k: string, l: string, e: Edge, metaById: Provider, repr: real -> string, seed: PanoMeta)
    requires Tracked(g, queue, visited, metas, metaById, repr, seed) && k in g.nodes
    ensures Tracked(WithLink(g, k, l, e), queue, visited, metas, metaById, repr, seed)
    ensures Grows(g, WithLink(g, k, l, e), metas, metas)
  {
    var g' := WithLink(g, k, l, e);
    forall j | j in g.nodes ensures g'.nodes[j].googlePanoId == g.nodes[j].googlePanoId &&
                                    g.nodes[j].links.Keys <= g'.nodes[j].links.Keys {
    }
  }

  /** Inserting the node of a newly seen panorama and queueing it keeps
      the invariant. */
  method AddNode(g: Graph, queue: seq<PanoMeta>, ghost visited: set<string>, ghost metas: map<string, PanoMeta>,
                 panoMeta: PanoMeta,
                 metaById: Provider, repr: real -> string, distance: (PanoMeta, PanoMeta) -> real,
                 seed: PanoMeta, threshold: real)
    returns (g': Graph, queue': seq<PanoMeta>, ghost metas': map<string, PanoMeta>)
    requires CrawlInv(g, queue, visited, metaById, repr, distance, seed, threshold)
    requires Tracked(g, queue, visited, metas, metaById, repr, seed)
    requires MetaKey(repr, panoMeta) !in g.nodes && panoMeta in metaById.Values
    requires (MetaKey(repr, panoMeta), panoMeta.panoId) in Near(metaById, repr, distance, seed, threshold)
    ensures CrawlInv(g', queue', visited, metaById, repr, distance, seed, threshold)
    ensures Tracked(g', queue', visited, metas', metaById, repr, seed)
    ensures Grows(g, g', metas, metas')
    ensures g'.nodes == g.nodes[MetaKey(repr, panoMeta) := NewNode(panoMeta)]
    ensures g'.order == g.order + [MetaKey(repr, panoMeta)]
  {
    var panoId := MetaKey(repr, panoMeta);
    AddNodeKeeps(g, queue, visited, panoMeta, metaById, repr, distance, seed, threshold);
    NodeTracked(g, queue, visited, metas, panoMeta, metaById, repr, seed);
    queue' := queue + [panoMeta];
    g' := WithNode(g, panoId, NewNode(panoMeta));
    metas' := metas[panoId := panoMeta];
  }

  /** Inserting and queueing a panorama keeps the bookkeeping. */
  lemma NodeTracked(g: Graph, queue: seq<PanoMeta>, visited: set<string>, metas: map<string, PanoMeta>,
                    panoMeta: PanoMeta, metaById: Provider, repr: real -> string, seed: PanoMeta)
    requires Tracked(g, queue, visited, metas, metaById, repr, seed)
    requires MetaKey(repr, panoMeta) !in g.nodes && panoMeta in metaById.Values
    ensures Tracked(WithNode(g, MetaKey(repr, panoMeta), NewNode(panoMeta)), queue + [panoMeta], visited,
                    metas[MetaKey(repr, panoMeta) := panoMeta], metaById, repr, seed)
    ensures Grows(g, WithNode(g, MetaKey(repr, panoMeta), NewNode(panoMeta)), metas,
                  metas[MetaKey(repr, panoMeta) := panoMeta])
  {
    var k := MetaKey(repr, panoMeta);
    var q := queue + [panoMeta];
    assert Pending(repr, q) == Pending(repr, queue) + {k} by {
      forall x | x in Pending(repr, q) ensures x in Pending(repr, queue) + {k} {
        var i :| 0 <= i < |q| && x == MetaKey(repr, q[i]);
        if i < |queue| {
          assert x == MetaKey(repr, queue[i]);
        }
      }
      forall x | x in Pending(repr, queue) ensures x in Pending(repr, q) {
        var i :| 0 <= i < |queue| && x == MetaKey(repr, queue[i]);
        assert x == MetaKey(repr, q[i]);
      }
      assert k == MetaKey(repr, q[|queue|]);
    }
    forall i | 0 <= i < |q| ensures MetaKey(repr, q[i]) in metas[k := panoMeta] &&
                                    metas[k := panoMeta][MetaKey(repr, q[i])] == q[i] {
      if i < |queue| {
        assert q[i] == queue[i];
      }
    }
  }

  lemma AddNodeKeeps(g: Graph, queue: seq<PanoMeta>, visited: set<string>, panoMeta: PanoMeta,
                     metaById: Provider, repr: real -> string, distance: (PanoMeta, PanoMeta) -> real,
                     seed: PanoMeta, threshold: real)
    requires CrawlInv(g, queue, visited, metaById, repr, distance, seed, threshold)
    requires MetaKey(repr, panoMeta) !in g.nodes
    requires (MetaKey(repr, panoMeta), panoMeta.panoId) in Near(metaById, repr, distance, seed, threshold)
    ensures CrawlInv(WithNode(g, MetaKey(repr, panoMeta), NewNode(panoMeta)), queue + [panoMeta], visited,
                     metaById, repr, distance, seed, threshold)
  {
    var panoId := MetaKey(repr, panoMeta);
    var g' := WithNode(g, panoId, NewNode(panoMeta));
    assert QueueKeys(repr, queue + [panoMeta]) == QueueKeys(repr, queue) + [panoId];
    WithNodeWellFormed(g, panoId, NewNode(panoMeta));
    WithNodeShape(g, panoMeta, metaById, repr, distance, seed, threshold);
  }

  /** Inserting a nearby panorama, without links, keeps the result
      properties. */
  lemma WithNodeShape(g: Graph, panoMeta: PanoMeta,
                      metaById: Provider, repr: real -> string, distance: (PanoMeta, PanoMeta) -> real,
                      seed: PanoMeta, threshold: real)
    requires CrawlShape(g, metaById, repr, distance, seed, threshold)
    requires MetaKey(repr, panoMeta) !in g.nodes
    requires (MetaKey(repr, panoMeta), panoMeta.panoId) in Near(metaById, repr, distance, seed, threshold)
    ensures CrawlShape(WithNode(g, MetaKey(repr, panoMeta), NewNode(panoMeta)), metaById, repr, distance, seed, threshold)
  {
  }

  /** Popping the head of the queue: its key was never expanded (so the
      `current_id in visited` test of line 191 is always false), and
      marking it expanded keeps the invariant. */
  lemma PopKeeps(g: Graph, queue: seq<PanoMeta>, visited: set<string>,
                 metaById: Provider, repr: real -> string, distance: (PanoMeta, PanoMeta) -> real,
                 seed: PanoMeta, threshold: real)
    requires CrawlInv(g, queue, visited, metaById, repr, distance, seed, threshold)
    requires queue != []
    ensures MetaKey(repr, queue[0]) !in visited
    ensures MetaKey(repr, queue[0]) in Reachable(metaById, repr, seed)
    ensures CrawlInv(g, queue[1..], visited + {MetaKey(repr, queue[0])}, metaById, repr, distance, seed, threshold)
  {
    var keys := QueueKeys(repr, queue);
    assert forall i :: 1 <= i < |queue| ==> keys[i] != keys[0];
    assert QueueKeys(repr, queue[1..]) == keys[1..];
  }

  /** The graph holding only the seed node, with the seed queued. */
  lemma InitKeeps(metaById: Provider, repr: real -> string, distance: (PanoMeta, PanoMeta) -> real,
                  seed: PanoMeta, threshold: real)
    ensures CrawlInv(Graph(map[MetaKey(repr, seed) := NewNode(seed)], [MetaKey(repr, seed)]), [seed], {},
                     metaById, repr, distance, seed, threshold)
  {
    assert QueueKeys(repr, [seed]) == [MetaKey(repr, seed)];
  }

  /** The seed-only start: the seed is the root's panorama, and queued. */
  lemma InitTracked(metaById: Provider, repr: real -> string, seed: PanoMeta)
    ensures Tracked(Graph(map[MetaKey(repr, seed) := NewNode(seed)], [MetaKey(repr, seed)]), [seed], {},
                    map[MetaKey(repr, seed) := seed], metaById, repr, seed)
  {
    assert MetaKey(repr, [seed][0]) in Pending(repr, [seed]);
  }

  /** Visiting one more reachable key shrinks the set still to visit. */
  lemma Shrinks(reach: set<string>, visited: set<string>, k: string)
    requires k in reach && k !in visited
    ensures |reach - (visited + {k})| < |reach - visited|
  {
    var rest := reach - (visited + {k});
    assert reach - visited == rest + {k} && k !in rest;
  }

  /** The breadth-first loop of lines 175-228, from the seed metadata:
      every node is expanded, and every link of its panorama that the
      service knows within the threshold is recorded. */
  method CrawlFrom(seed: PanoMeta, metaById: Provider, repr: real -> string,
                   distance: (PanoMeta, PanoMeta) -> real, threshold: real)
    returns (g: Graph)
    ensures CrawlResult(g, metaById, repr, distance, seed, threshold)
    ensures Collected(g, metaById, repr, distance, seed, threshold)
  {
    var root := MetaKey(repr, seed);
    g := Graph(map[root := NewNode(seed)], [root]);
    ghost var visited: set<string> := {};
    ghost var reach := Reachable(metaById, repr, seed);
    ghost var metas := map[root := seed];
    var queue := [seed];
    InitKeeps(metaById, repr, distance, seed, threshold);
    InitTracked(metaById, repr, seed);

    while queue != []
      invariant CrawlInv(g, queue, visited, metaById, repr, distance, seed, threshold)
      invariant Tracked(g, queue, visited, metas, metaById, repr, seed)
      invariant Complete(g, metas, visited, metaById, repr, distance, seed, threshold)
      invariant Provenance(g, metas, visited, metaById, repr, distance, seed, threshold)
      invariant Discovered(g, root)
      decreases |reach - visited|
    {
      var current := queue[0];
      var currentId := MetaKey(repr, current);
      PopKeeps(g, queue, visited, metaById, repr, distance, seed, threshold);
      PopTracked(g, queue, visited, metas, metaById, repr, seed);
      assert g.nodes[currentId].links == map[];
      queue := queue[1..];
      Shrinks(reach, visited, currentId);
      ghost var done := visited;
      visited := visited + {currentId};

      ghost var g0, metas0 := g, metas;
      if current.links.Some? {
        g, queue, metas := ProcessLinks(g, queue, visited, metas, currentId, current.links.value,
                                        metaById, repr, distance, seed, threshold);
        CompleteGrows(g0, g, metas0, metas, done, metaById, repr, distance, seed, threshold);
      } else {
        RecordedNone(g.nodes[currentId], [], metaById, repr, distance, seed, threshold);
      }
      CompleteAdd(g, metas, done, currentId, metaById, repr, distance, seed, threshold);
      ProvenanceAdd(g0, g, metas0, metas, done, currentId, metaById, repr, distance, seed, threshold);
    }
    Drained(g, visited, metas, metaById, repr, distance, seed, threshold);
  }

  /** The inner loop of lines 200-226 over the links of the expanded node:
      afterwards every one of them is covered, the node holds exactly their
      entries, and no other node's links change. */
  method ProcessLinks(g: Graph, queue: seq<PanoMeta>, ghost visited: set<string>, ghost metas: map<string, PanoMeta>,
                      currentId: string, links: seq<MetaLink>, metaById: Provider, repr: real -> string,
                      distance: (PanoMeta, PanoMeta) -> real, seed: PanoMeta, threshold: real)
    returns (g': Graph, queue': seq<PanoMeta>, ghost metas': map<string, PanoMeta>)
    requires CrawlInv(g, queue, visited, metaById, repr, distance, seed, threshold)
    requires Tracked(g, queue, visited, metas, metaById, repr, seed)
    requires currentId in visited && g.nodes[currentId].links == map[]
    requires Discovered(g, MetaKey(repr, seed))
    ensures CrawlInv(g', queue', visited, metaById, repr, distance, seed, threshold)
    ensures Tracked(g', queue', visited, metas', metaById, repr, seed)
    ensures Grows(g, g', metas, metas')
    ensures CoveredUpTo(g', currentId, links, |links|, metaById, repr, distance, seed, threshold)
    ensures Untouched(g, g', currentId)
    ensures Recorded(g'.nodes[currentId], links, |links|, metaById, repr, distance, seed, threshold)
    ensures Discovered(g', MetaKey(repr, seed))
  {
    g', queue', metas' := g, queue, metas;
    var j := 0;
    RecordedNone(g.nodes[currentId], links, metaById, repr, distance, seed, threshold);
    while j < |links|
      invariant 0 <= j <= |links|
      invariant CrawlInv(g', queue', visited, metaById, repr, distance, seed, threshold)
      invariant Tracked(g', queue', visited, metas', metaById, repr, seed)
      invariant Grows(g, g', metas, metas')
      invariant CoveredUpTo(g', currentId, links, j, metaById, repr, distance, seed, threshold)
      invariant Untouched(g, g', currentId)
      invariant Recorded(g'.nodes[currentId], links, j, metaById, repr, distance, seed, threshold)
      invariant Discovered(g', MetaKey(repr, seed))
    {
      ghost var g0, m0 := g', metas';
      g', queue', metas' := ProcessLink(g', queue', visited, metas', currentId, links, j, links[j],
                                        metaById, repr, distance, seed, threshold);
      GrowsTransitive(g, g0, g', metas, m0, metas');
      UntouchedTransitive(g, g0, g', currentId);
      CoversGrow(g0, g', m0, metas', currentId, links, j, metaById, repr, distance, seed, threshold);
      j := j + 1;
    }
  }

  /** The first `n` links of the panorama of `k` are covered. */
  ghost predicate CoveredUpTo(g: Graph, k: string, links: seq<MetaLink>, n: nat, metaById: Provider,
                              repr: real -> string, distance: (PanoMeta, PanoMeta) -> real, seed: PanoMeta,
                              threshold: real)
  {
    n <= |links| && forall i :: 0 <= i < n ==> Covers(g, k, links[i], metaById, repr, distance, seed, threshold)
  }

  /** Growing keeps covered links covered, and covering the next link
      extends the prefix. */
  lemma CoversGrow(g: Graph, g': Graph, metas: map<string, PanoMeta>, metas': map<string, PanoMeta>,
                   k: string, links: seq<MetaLink>, n: nat, metaById: Provider, repr: real -> string,
                   distance: (PanoMeta, PanoMeta) -> real, seed: PanoMeta, threshold: real)
    requires Grows(g, g', metas, metas') && n < |links|
    requires CoveredUpTo(g, k, links, n, metaById, repr, distance, seed, threshold)
    requires Covers(g', k, links[n], metaById, repr, distance, seed, threshold)
    ensures CoveredUpTo(g', k, links, n + 1, metaById, repr, distance, seed, threshold)
  {
  }

  /** The whole of `get_panograph_around_location`: None when there is no
      session token or no metadata for the location (after one retry at
      the nearest road when the first answer has no links); otherwise the
      crawl from the metadata found. */
  method GetPanographAroundLocation(token: Option<string>, lat: real, lng: real,
                                    metaAt: (real, real) -> Option<PanoMeta>,
                                    nearestRoad: (real, real) -> (real, real),
                                    metaById: Provider, repr: real -> string,
                                    distance: (PanoMeta, PanoMeta) -> real, threshold: real)
    returns (r: Option<Graph>)
    ensures r.None? <==>
      token.None? || metaAt(lat, lng).None? ||
      (metaAt(lat, lng).value.links.None? && metaAt(nearestRoad(lat, lng).0, nearestRoad(lat, lng).1).None?)
    ensures r.Some? ==>
      var seed := if metaAt(lat, lng).value.links.Some? then metaAt(lat, lng).value
                  else metaAt(nearestRoad(lat, lng).0, nearestRoad(lat, lng).1).value;
      CrawlResult(r.value, metaById, repr, distance, seed, threshold) &&
      Collected(r.value, metaById, repr, distance, seed, threshold)
  {
    if token.None? {
      return None;
    }
    var meta := metaAt(lat, lng);
    if meta.None? {
      return None;
    }
    if meta.value.links.None? {
      var road := nearestRoad(lat, lng);
      meta := metaAt(road.0, road.1);
      if meta.None? {
        return None;
      }
    }
    var g := CrawlFrom(meta.value, metaById, repr, distance, threshold);
    return Some(g);
  }
}
