/** Building a navigation task (models/outdoor/navigation/task_construction.py):
    crawl the panorama graph around the source out to the source-target
    distance times a coefficient, then take the graph nodes closest to the
    source and to the target as the navigation task's endpoints. `greatCircle` is the
    great-circle distance between two (lat, lng) points. */
module TaskConstruction {
  import opened Wrappers
  import opened Text
  import opened PanoGraph
  import opened Crawl

  type GreatCircle = (real, real, real, real) -> real

  /** The distance from node `k` to `target`. */
  function NodeDistance(g: Graph, k: string, target: (real, real), greatCircle: GreatCircle): real
    requires k in g.nodes
  {
    greatCircle(g.nodes[k].lat, g.nodes[k].lng, target.0, target.1)
  }

  /** The node `get_closest_node_from_graph_json` settles on among `keys`:
      a node replaces the current choice only when strictly closer. */
  function Closest(g: Graph, keys: seq<string>, target: (real, real), greatCircle: GreatCircle): (r: Option<string>)
    requires forall k :: k in keys ==> k in g.nodes
    ensures r.Some? ==> r.value in keys
  {
    if keys == [] then None
    else
      var c := Closest(g, keys[..|keys| - 1], target, greatCircle);
      var k := keys[|keys| - 1];
      if c.None? || NodeDistance(g, k, target, greatCircle) < NodeDistance(g, c.value, target, greatCircle)
      then Some(k) else c
  }

  /** The closest node is none for no keys; otherwise it is one of the
      keys, no key is closer, and every key before its first occurrence is
      strictly farther: the first of the closest wins. */
  lemma {:induction false} ClosestFacts(g: Graph, keys: seq<string>, target: (real, real), greatCircle: GreatCircle)
    requires forall k :: k in keys ==> k in g.nodes
    ensures Closest(g, keys, target, greatCircle).None? <==> keys == []
    ensures Closest(g, keys, target, greatCircle).Some? ==>
      var c := Closest(g, keys, target, greatCircle).value;
      var d := NodeDistance(g, c, target, greatCircle);
      && (forall j :: 0 <= j < |keys| ==> d <= NodeDistance(g, keys[j], target, greatCircle))
      && exists idx :: 0 <= idx < |keys| && keys[idx] == c &&
           forall j :: 0 <= j < idx ==> d < NodeDistance(g, keys[j], target, greatCircle)
  {
    if keys != [] {
      var init := keys[..|keys| - 1];
      var last := keys[|keys| - 1];
      assert forall k :: k in init ==> k in keys;
      ClosestFacts(g, init, target, greatCircle);
      var c := Closest(g, keys, target, greatCircle).value;
      var d := NodeDistance(g, c, target, greatCircle);
      if c == last && (init == [] || NodeDistance(g, last, target, greatCircle) <
                       NodeDistance(g, Closest(g, init, target, greatCircle).value, target, greatCircle)) {
        forall j | 0 <= j < |init|
          ensures d < NodeDistance(g, keys[j], target, greatCircle)
        {
          assert init[j] == keys[j];
        }
      } else {
        var idx :| 0 <= idx < |init| && init[idx] == c &&
          forall j :: 0 <= j < idx ==> d < NodeDistance(g, init[j], target, greatCircle);
        assert keys[idx] == c;
        forall j | 0 <= j < idx
          ensures d < NodeDistance(g, keys[j], target, greatCircle)
        {
          assert init[j] == keys[j];
        }
        forall j | 0 <= j < |keys|
          ensures d <= NodeDistance(g, keys[j], target, greatCircle)
        {
          if j < |init| {
            assert init[j] == keys[j];
          }
        }
      }
    }
  }

  /** `get_closest_node_from_graph_json`: scan the nodes in insertion
      order, keeping the first strictly closer one. */
  method ClosestNode(g: Graph, target: (real, real), greatCircle: GreatCircle) returns (r: Option<string>)
    requires WellFormed(g)
    ensures r == Closest(g, g.order, target, greatCircle)
  {
    r := None;
    var closestDistance := 0.0;
    var i := 0;
    while i < |g.order|
      invariant 0 <= i <= |g.order|
      invariant r == Closest(g, g.order[..i], target, greatCircle)
      invariant r.Some? ==> r.value in g.nodes && closestDistance == NodeDistance(g, r.value, target, greatCircle)
    {
      var k := g.order[i];
      assert g.order[..i + 1][..i] == g.order[..i];
      var distance := NodeDistance(g, k, target, greatCircle);
      if r.None? || distance < closestDistance {
        closestDistance := distance;
        r := Some(k);
      }
      i := i + 1;
    }
    assert g.order[..i] == g.order;
  }

  /** A task as `construct_navi_task` saves it. */
  datatype NaviTask = NaviTask(source: Option<string>, target: Option<string>, graph: Graph)

  /** The metadata the crawl starts from: the panorama at the location,
      or the one at the nearest road when the first has no links. */
  function Seed(lat: real, lng: real, metaAt: (real, real) -> Option<PanoMeta>,
                nearestRoad: (real, real) -> (real, real)): Option<PanoMeta>
  {
    if metaAt(lat, lng).Some? && metaAt(lat, lng).value.links.Some? then metaAt(lat, lng)
    else metaAt(nearestRoad(lat, lng).0, nearestRoad(lat, lng).1)
  }

  /** The endpoints of a task: the nodes closest to the source and to the
      target. A graph with a node always yields both. */
  method Endpoints(g: Graph, source: (real, real), target: (real, real), greatCircle: GreatCircle)
    returns (s: Option<string>, t: Option<string>)
    requires WellFormed(g) && g.nodes != map[]
    ensures s.Some? && s.value in g.nodes && s == Closest(g, g.order, source, greatCircle)
    ensures t.Some? && t.value in g.nodes && t == Closest(g, g.order, target, greatCircle)
  {
    var k :| k in g.nodes;
    assert k in g.order;
    ClosestFacts(g, g.order, source, greatCircle);
    ClosestFacts(g, g.order, target, greatCircle);
    s := ClosestNode(g, source, greatCircle);
    t := ClosestNode(g, target, greatCircle);
  }

  /** The crawl `construct_navi_task` makes: around the source, out to
      `distance(source, target) * coefficient`. */
  method CrawlAround(source: (real, real), target: (real, real), coefficient: real,
                     token: Option<string>, metaAt: (real, real) -> Option<PanoMeta>,
                     nearestRoad: (real, real) -> (real, real), metaById: Provider,
                     repr: real -> string, metaDistance: (PanoMeta, PanoMeta) -> real,
                     greatCircle: GreatCircle)
    returns (graph: Option<Graph>)
    ensures graph.Some? ==> WellFormed(graph.value) && graph.value.nodes != map[]
    ensures graph.Some? ==> (Seed(source.0, source.1, metaAt, nearestRoad).Some? &&
      CrawlResult(graph.value, metaById, repr, metaDistance, Seed(source.0, source.1, metaAt, nearestRoad).value,
                  greatCircle(source.0, source.1, target.0, target.1) * coefficient))
  {
    graph := GetPanographAroundLocation(token, source.0, source.1, metaAt, nearestRoad,
                                        metaById, repr, metaDistance,
                                        greatCircle(source.0, source.1, target.0, target.1) * coefficient);
    if graph.Some? {
      SeedIsCrawlSeed(source.0, source.1, metaAt, nearestRoad);
      assert MetaKey(repr, Seed(source.0, source.1, metaAt, nearestRoad).value) in graph.value.nodes;
    }
  }

  /** `Seed` is the metadata the crawl starts from whenever it runs. */
  lemma SeedIsCrawlSeed(lat: real, lng: real, metaAt: (real, real) -> Option<PanoMeta>,
                        nearestRoad: (real, real) -> (real, real))
    requires metaAt(lat, lng).Some?
    requires metaAt(lat, lng).value.links.None? ==> metaAt(nearestRoad(lat, lng).0, nearestRoad(lat, lng).1).Some?
    ensures Seed(lat, lng, metaAt, nearestRoad).Some?
    ensures Seed(lat, lng, metaAt, nearestRoad).value ==
      if metaAt(lat, lng).value.links.Some? then metaAt(lat, lng).value
      else metaAt(nearestRoad(lat, lng).0, nearestRoad(lat, lng).1).value
  {
  }

  /** `construct_navi_task`: crawl, then take the nodes closest to the
      source and to the target. A crawl that returns None makes
      `graph_json.items()` raise. */
  method ConstructNaviTask(source: (real, real), target: (real, real), coefficient: real,
                           token: Option<string>, metaAt: (real, real) -> Option<PanoMeta>,
                           nearestRoad: (real, real) -> (real, real), metaById: Provider,
                           repr: real -> string, metaDistance: (PanoMeta, PanoMeta) -> real,
                           greatCircle: GreatCircle)
    returns (r: Result<NaviTask>)
    ensures r.Err? ==> r.error == AttributeError
    ensures r.Ok? ==> (Seed(source.0, source.1, metaAt, nearestRoad).Some? &&
      CrawlResult(r.value.graph, metaById, repr, metaDistance, Seed(source.0, source.1, metaAt, nearestRoad).value,
                  greatCircle(source.0, source.1, target.0, target.1) * coefficient))
    ensures r.Ok? ==>
      && r.value.source.Some? && r.value.source.value in r.value.graph.nodes
      && r.value.target.Some? && r.value.target.value in r.value.graph.nodes
      && r.value.source == Closest(r.value.graph, r.value.graph.order, source, greatCircle)
      && r.value.target == Closest(r.value.graph, r.value.graph.order, target, greatCircle)
  {
    var graph := CrawlAround(source, target, coefficient, token, metaAt, nearestRoad,
                             metaById, repr, metaDistance, greatCircle);
    if graph.None? {
      return Err(AttributeError);
    }
    var s, t := Endpoints(graph.value, source, target, greatCircle);
    return Ok(NaviTask(s, t, graph.value));
  }

  /** `parse_coordinates`: strip '(' and ')' from both ends, split on ',',
      which must give two numbers; any failure becomes
      `ArgumentTypeError`. `parseFloat` is Python's `float` on text (None
      where it raises). */
  function ParseCoordinates(value: string, parseFloat: string -> Option<real>): (r: Result<(real, real)>)
    ensures r.Err? ==> r.error == ArgumentTypeError(CoordinatesFormat)
    ensures r.Ok? ==> |Split(StripWith(value, IsParen), ',')| == 2
  {
    var parts := Split(StripWith(value, IsParen), ',');
    if |parts| != 2 then Err(ArgumentTypeError(CoordinatesFormat))
    else match (parseFloat(parts[0]), parseFloat(parts[1]))
      case (Some(lat), Some(lon)) => Ok((lat, lon))
      case _ => Err(ArgumentTypeError(CoordinatesFormat))
  }

  const CoordinatesFormat := "Coordinates must be in the format '(lat, lon)' or 'lat,lon'."

  predicate IsParen(c: char) { c == '(' || c == ')' }

  /** Reading back "lat,lon": two comma-free numbers written with a comma
      between them parse to the two numbers. */
  lemma ParseCoordinatesPair(a: string, b: string, parseFloat: string -> Option<real>)
    requires ',' !in a && ',' !in b
    requires a != [] && !IsParen(a[0]) && b != [] && !IsParen(b[|b| - 1])
    requires parseFloat(a).Some? && parseFloat(b).Some?
    ensures ParseCoordinates(a + "," + b, parseFloat) == Ok((parseFloat(a).value, parseFloat(b).value))
  {
    var s := a + [','] + b;
    assert s == a + "," + b;
    assert s[0] == a[0] && s[|s| - 1] == b[|b| - 1];
    StripWithUnchanged(s, IsParen);
    SplitPair(a, b, ',');
    assert Split(s, ',') == [a, b];
  }
}
