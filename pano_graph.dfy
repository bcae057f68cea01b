/** The panorama graph of the outdoor navigation code
    (models/outdoor/navigation/utils.py): the metadata the Street View
    service returns, the graph the crawl builds from it, and the node keys
    made from a panorama's coordinates.

    Python dictionaries keep insertion order, and several operations
    depend on it (first minimum, last write wins). A dictionary is
    therefore modelled as a map together with the sequence of its keys in
    insertion order. */
module PanoGraph {
  import opened Wrappers
  import opened Text

  /** A link as the metadata service reports it. */
  datatype MetaLink = MetaLink(panoId: string, heading: real, text: string, elevation: real)

  /** Panorama metadata; `links` is None when the response has no "links". */
  datatype PanoMeta = PanoMeta(panoId: string, lat: real, lng: real, links: Option<seq<MetaLink>>)

  /** A link entry of the graph: {google_pano_id, heading, text, elevation}. */
  datatype Edge = Edge(googlePanoId: string, heading: real, text: string, elevation: real)

  /** A graph node: {google_pano_id, lat, lng, links}. */
  datatype Node = Node(googlePanoId: string, lat: real, lng: real,
                       links: map<string, Edge>, linkOrder: seq<string>)

  /** The graph: node key to node, with the keys in insertion order. */
  datatype Graph = Graph(nodes: map<string, Node>, order: seq<string>)

  predicate Distinct<T(==)>(s: seq<T>) {
    forall i, j :: 0 <= i < j < |s| ==> s[i] != s[j]
  }

  /** `order` lists every key of `keys` exactly once. */
  ghost predicate Enumerates(order: seq<string>, keys: set<string>) {
    Distinct(order) && (forall k :: k in order <==> k in keys)
  }

  ghost predicate WellFormedNode(n: Node) {
    Enumerates(n.linkOrder, n.links.Keys)
  }

  /** A node without links lists none. */
  lemma NoLinksNoOrder(n: Node)
    requires WellFormedNode(n)
    ensures |n.links| == 0 ==> n.linkOrder == []
  {
    if n.linkOrder != [] {
      assert n.linkOrder[0] in n.links.Keys;
    }
  }

  ghost predicate WellFormed(g: Graph) {
    Enumerates(g.order, g.nodes.Keys) &&
    forall k :: k in g.nodes ==> WellFormedNode(g.nodes[k])
  }

  /** Every link of every node leads to a key of the graph. */
  ghost predicate Closed(g: Graph) {
    forall k, l :: k in g.nodes && l in g.nodes[k].links ==> l in g.nodes
  }

  /** `get_pano_id`: the decimal rendering of the latitude followed,
      with no separator, by that of the longitude. `repr` is Python's
      `str` on floats. */
  function PanoKey(repr: real -> string, lat: real, lng: real): string {
    repr(lat) + repr(lng)
  }

  function MetaKey(repr: real -> string, m: PanoMeta): string {
    PanoKey(repr, m.lat, m.lng)
  }

  /** `parse_coord(key)` inside `navigate_environment`: split the key on
      '-', which must give exactly two parts, and negate the second.
      `parseFloat` is Python's `float` on text (None where it raises). */
  function ParseCoord(key: string, parseFloat: string -> Option<real>): (r: Result<(real, real)>)
    ensures r.Ok? ==> |Split(key, '-')| == 2
  {
    var parts := Split(key, '-');
    if |parts| != 2 then Err(ValueError("too many values to unpack"))
    else match (parseFloat(parts[0]), parseFloat(parts[1]))
      case (Some(lat), Some(lng)) => Ok((lat, -lng))
      case _ => Err(ValueError("could not convert string to float"))
  }

  /** The facts about Python's float rendering that the key round trip
      needs: no '-' inside the latitude, a negative longitude rendered as
      '-' followed by its absolute value, and `float` reading both back. */
  predicate RendersWestern(repr: real -> string, parseFloat: string -> Option<real>, lat: real, lng: real) {
    lng < 0.0 && '-' !in repr(lat) && repr(lng) == ['-'] + repr(-lng) && '-' !in repr(-lng) &&
    parseFloat(repr(lat)) == Some(lat) && parseFloat(repr(-lng)) == Some(-lng)
  }

  /** `parse_coord` inverts `get_pano_id` for a non-negative latitude and a
      negative longitude. */
  lemma ParseCoordInvertsPanoKey(repr: real -> string, parseFloat: string -> Option<real>, lat: real, lng: real)
    requires RendersWestern(repr, parseFloat, lat, lng)
    ensures ParseCoord(PanoKey(repr, lat, lng), parseFloat) == Ok((lat, lng))
  {
    var key := PanoKey(repr, lat, lng);
    assert key == repr(lat) + ['-'] + repr(-lng);
    SplitJoin([repr(lat), repr(-lng)], '-');
    assert Join([repr(lat), repr(-lng)], '-') == key;
  }

  /** A negative latitude puts a second '-' in front of the key, so the
      split gives three parts and the unpacking raises. */
  lemma ParseCoordRejectsSouthernWestern(repr: real -> string, parseFloat: string -> Option<real>, lat: real, lng: real)
    requires |repr(lat)| > 0 && repr(lat)[0] == '-' && '-' !in repr(lat)[1..]
    requires repr(lng) == ['-'] + repr(-lng) && '-' !in repr(-lng)
    ensures ParseCoord(PanoKey(repr, lat, lng), parseFloat).Err?
  {
    var key := PanoKey(repr, lat, lng);
    var parts := [[], repr(lat)[1..], repr(-lng)];
    assert key == Join(parts, '-') by {
      assert repr(lat) == ['-'] + repr(lat)[1..];
      assert parts[1..] == [repr(lat)[1..], repr(-lng)];
      assert Join(parts[1..], '-') == repr(lat)[1..] + ['-'] + repr(-lng);
    }
    SplitJoin(parts, '-');
  }

  /** `pano_graph[k]["links"][l] = e` guarded by `l not in links`: an
      existing link entry is never overwritten. */
  function WithLink(g: Graph, k: string, l: string, e: Edge): (r: Graph)
    requires k in g.nodes
    ensures r.order == g.order && r.nodes.Keys == g.nodes.Keys
    ensures l in r.nodes[k].links
    ensures l in g.nodes[k].links ==> r == g
    ensures l !in g.nodes[k].links ==> r.nodes[k].links == g.nodes[k].links[l := e]
    ensures forall j :: j in g.nodes && j != k ==> r.nodes[j] == g.nodes[j]
  {
    var n := g.nodes[k];
    if l in n.links then g
    else g.(nodes := g.nodes[k := n.(links := n.links[l := e], linkOrder := n.linkOrder + [l])])
  }

  /** `pano_graph[k] = n` for a key not yet present. */
  function WithNode(g: Graph, k: string, n: Node): (r: Graph)
    requires k !in g.nodes
    ensures r.nodes == g.nodes[k := n] && r.order == g.order + [k]
  {
    Graph(g.nodes[k := n], g.order + [k])
  }

  lemma WithLinkWellFormed(g: Graph, k: string, l: string, e: Edge)
    requires WellFormed(g) && k in g.nodes
    ensures WellFormed(WithLink(g, k, l, e))
  {
  }

  lemma WithNodeWellFormed(g: Graph, k: string, n: Node)
    requires WellFormed(g) && k !in g.nodes && WellFormedNode(n)
    ensures WellFormed(WithNode(g, k, n))
  {
  }
}
