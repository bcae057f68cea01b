/** The dataset generator's pure pieces
    (models/outdoor/navigation/target_gen/auto_generator.py): reading a
    node key back into coordinates, choosing a start node far from the
    source, the coordinate list of a path, the sub-task intents an LLM
    answer lists, and the coordinate text of a generated item.

    `parseFloat` is Python's `float` on text (None where it raises),
    `haversine` the great-circle distance and `pick` the index
    `random.choice` draws. */
module AutoGenerator {
  import opened Wrappers
  import opened Text
  import opened Json
  import TaskConstruction

  type Haversine = (real, real, real, real) -> real

  /** `parse_coordinate`: the separator is the first '-' after an
      optional leading '-'; the latitude is the text before it and the
      longitude the negated number after it. */
  function ParseCoordinate(s: string, parseFloat: string -> Option<real>): (r: Result<(real, real)>)
    ensures s == [] ==> r == Err(IndexError)
    ensures s != [] && FindFrom(s, '-', if s[0] == '-' then 1 else 0) == -1 ==>
      r == Err(ValueError("Invalid coordinate format: " + s))
  {
    if s == [] then Err(IndexError)
    else
      var sep := FindFrom(s, '-', if s[0] == '-' then 1 else 0);
      if sep == -1 then Err(ValueError("Invalid coordinate format: " + s))
      else match (parseFloat(s[..sep]), parseFloat(s[sep + 1..]))
        case (Some(lat), Some(lng)) => Ok((lat, -lng))
        case _ => Err(ValueError("could not convert string to float"))
  }

  /** What the round trip needs of Python's float rendering: the
      latitude's text has at most a leading '-', and `float` reads both
      texts back. */
  predicate Renders(repr: real -> string, parseFloat: string -> Option<real>, lat: real, lng: real) {
    repr(lat) != [] && '-' !in repr(lat)[1..] &&
    parseFloat(repr(lat)) == Some(lat) && parseFloat(repr(-lng)) == Some(-lng)
  }

  /** `parse_coordinate(f"{lat}-{abs(lng)}")` gives back `(lat, lng)` for a
      longitude at most 0, whatever the latitude's sign. */
  lemma ParseCoordinateRoundTrip(repr: real -> string, parseFloat: string -> Option<real>, lat: real, lng: real)
    requires lng <= 0.0 && Renders(repr, parseFloat, lat, lng)
    ensures ParseCoordinate(repr(lat) + "-" + repr(-lng), parseFloat) == Ok((lat, lng))
  {
    var a := repr(lat);
    var s := a + "-" + repr(-lng);
    var start := if s[0] == '-' then 1 else 0;
    assert s[|a|] == '-';
    forall i | start <= i < |a|
      ensures s[i] != '-'
    {
      assert s[i] == a[i];
      if i >= 1 {
        assert a[i] == a[1..][i - 1];
      }
    }
    FindFromIs(s, '-', start, |a|);
    assert s[..|a|] == a && s[|a| + 1..] == repr(-lng);
  }

  /** `find` returns the first index at or after `start` holding `c`. */
  lemma FindFromIs(s: string, c: char, start: nat, k: nat)
    requires start <= k < |s| && s[k] == c && forall i :: start <= i < k ==> s[i] != c
    ensures FindFrom(s, c, start) == k
  {
    var r := FindFrom(s, c, start);
    assert r != -1;
  }

  /** The distance from the source to node `key`, None where the key does
      not parse. */
  function DistanceTo(src: (real, real), key: string, parseFloat: string -> Option<real>, haversine: Haversine): Option<real>
  {
    match ParseCoordinate(key, parseFloat)
    case Ok(c) => Some(haversine(src.0, src.1, c.0, c.1))
    case Err(_) => None
  }

  /** Every node other than the source parses. */
  predicate AllParse(keys: seq<string>, source: string, parseFloat: string -> Option<real>) {
    forall i :: 0 <= i < |keys| && keys[i] != source ==> ParseCoordinate(keys[i], parseFloat).Ok?
  }

  /** `valid_nodes`: the nodes other than the source farther than the
      threshold, in order. */
  function Above(keys: seq<string>, source: string, src: (real, real), threshold: real,
                 parseFloat: string -> Option<real>, haversine: Haversine): seq<string>
  {
    if keys == [] then []
    else
      var rest := Above(keys[..|keys| - 1], source, src, threshold, parseFloat, haversine);
      var k := keys[|keys| - 1];
      var d := DistanceTo(src, k, parseFloat, haversine);
      if k != source && d.Some? && d.value > threshold then rest + [k] else rest
  }

  /** `(max_distance, farthest_node)`: the first node whose distance is
      strictly larger than every earlier one, starting from -1. */
  function Farthest(keys: seq<string>, source: string, src: (real, real),
                    parseFloat: string -> Option<real>, haversine: Haversine): (real, Option<string>)
  {
    if keys == [] then (-1.0, None)
    else
      var (m, f) := Farthest(keys[..|keys| - 1], source, src, parseFloat, haversine);
      var k := keys[|keys| - 1];
      var d := DistanceTo(src, k, parseFloat, haversine);
      if k != source && d.Some? && d.value > m then (d.value, Some(k)) else (m, f)
  }

  /** The far nodes are exactly the nodes other than the source beyond
      the threshold. */
  lemma {:induction false} AboveExactly(keys: seq<string>, source: string, src: (real, real), threshold: real,
                                       parseFloat: string -> Option<real>, haversine: Haversine, k: string)
    ensures k in Above(keys, source, src, threshold, parseFloat, haversine) <==>
      k in keys && k != source && DistanceTo(src, k, parseFloat, haversine).Some? &&
      DistanceTo(src, k, parseFloat, haversine).value > threshold
  {
    if keys != [] {
      var init := keys[..|keys| - 1];
      AboveExactly(init, source, src, threshold, parseFloat, haversine, k);
      assert keys == init + [keys[|keys| - 1]];
      assert k in keys <==> k in init || k == keys[|keys| - 1];
    }
  }

  /** The farthest node is a node other than the source, as far as the
      maximum, no node is farther and every node before it is strictly
      nearer; with no such node the maximum stays -1 and nothing is
      farther than that. */
  lemma {:induction false} FarthestFacts(keys: seq<string>, source: string, src: (real, real),
                                        parseFloat: string -> Option<real>, haversine: Haversine)
    ensures var (m, f) := Farthest(keys, source, src, parseFloat, haversine);
      && (f.None? ==> m == -1.0)
      && (forall i :: 0 <= i < |keys| && keys[i] != source && DistanceTo(src, keys[i], parseFloat, haversine).Some? ==>
            DistanceTo(src, keys[i], parseFloat, haversine).value <= m)
      && (f.Some? ==> (f.value != source && DistanceTo(src, f.value, parseFloat, haversine) == Some(m) &&
            exists idx :: (0 <= idx < |keys| && keys[idx] == f.value &&
              forall j :: 0 <= j < idx && keys[j] != source && DistanceTo(src, keys[j], parseFloat, haversine).Some? ==>
                DistanceTo(src, keys[j], parseFloat, haversine).value < m)))
  {
    if keys != [] {
      var init := keys[..|keys| - 1];
      FarthestFacts(init, source, src, parseFloat, haversine);
      var (m0, f0) := Farthest(init, source, src, parseFloat, haversine);
      var (m, f) := Farthest(keys, source, src, parseFloat, haversine);
      forall i | 0 <= i < |init|
        ensures init[i] == keys[i]
      {
      }
      if f != f0 || m != m0 {
        var idx := |keys| - 1;
        assert keys[idx] == f.value;
      } else if f.Some? {
        var idx :| 0 <= idx < |init| && init[idx] == f.value &&
          forall j :: 0 <= j < idx && init[j] != source && DistanceTo(src, init[j], parseFloat, haversine).Some? ==>
            DistanceTo(src, init[j], parseFloat, haversine).value < m;
        assert keys[idx] == f.value;
      }
    }
  }

  /** `get_random_node_above_distance`: one of the nodes beyond the
      threshold, drawn by `pick`; when there is none, the first farthest
      node, or None when the source is the only node. A key that does not
      parse raises. */
  method RandomNodeAboveDistance(threshold: real, keys: seq<string>, source: string,
                                 parseFloat: string -> Option<real>, haversine: Haversine, pick: nat)
    returns (r: Result<Option<string>>)
    ensures r.Err? <==> ParseCoordinate(source, parseFloat).Err? || !AllParse(keys, source, parseFloat)
    ensures r.Ok? ==>
      var src := ParseCoordinate(source, parseFloat).value;
      var above := Above(keys, source, src, threshold, parseFloat, haversine);
      && (above != [] ==> r.value == Some(above[pick % |above|]))
      && (above == [] ==> r.value == Farthest(keys, source, src, parseFloat, haversine).1)
  {
    var sc := ParseCoordinate(source, parseFloat);
    if sc.Err? {
      return Err(sc.error);
    }
    var src := sc.value;
    var validNodes: seq<string> := [];
    var maxDistance := -1.0;
    var farthestNode: Option<string> := None;
    var i := 0;
    while i < |keys|
      invariant 0 <= i <= |keys| && AllParse(keys[..i], source, parseFloat)
      invariant validNodes == Above(keys[..i], source, src, threshold, parseFloat, haversine)
      invariant (maxDistance, farthestNode) == Farthest(keys[..i], source, src, parseFloat, haversine)
    {
      var node := keys[i];
      assert keys[..i + 1][..i] == keys[..i];
      if node != source {
        var c := ParseCoordinate(node, parseFloat);
        if c.Err? {
          assert !AllParse(keys, source, parseFloat);
          return Err(c.error);
        }
        var d := haversine(src.0, src.1, c.value.0, c.value.1);
        if d > threshold {
          validNodes := validNodes + [node];
        }
        if d > maxDistance {
          maxDistance := d;
          farthestNode := Some(node);
        }
      }
      i := i + 1;
    }
    assert keys[..i] == keys;
    if validNodes == [] {
      return Ok(farthestNode);
    }
    return Ok(Some(validNodes[pick % |validNodes|]));
  }

  /** The start node is never the source: it is a node beyond the
      threshold when there is one, and otherwise the first farthest. */
  lemma NeverTheSource(threshold: real, keys: seq<string>, source: string, src: (real, real),
                       parseFloat: string -> Option<real>, haversine: Haversine, pick: nat)
    ensures var above := Above(keys, source, src, threshold, parseFloat, haversine);
      var chosen := if above != [] then Some(above[pick % |above|]) else Farthest(keys, source, src, parseFloat, haversine).1;
      chosen.Some? ==> chosen.value in keys && chosen.value != source
  {
    var above := Above(keys, source, src, threshold, parseFloat, haversine);
    if above != [] {
      AboveExactly(keys, source, src, threshold, parseFloat, haversine, above[pick % |above|]);
    } else {
      FarthestFacts(keys, source, src, parseFloat, haversine);
    }
  }

  /** `save_path_as_json`'s coordinate list: `{"lat", "lng"}` of each
      path node's graph entry, in path order. A missing node or field is a
      `KeyError`; a node entry that is not a dictionary a `TypeError`. */
  method PathCoordinates(path: seq<string>, graph: Fields) returns (r: Result<seq<Json>>)
    ensures r.Ok? <==> forall i :: 0 <= i < |path| ==> NodeCoordinate(graph, path[i]).Ok?
    ensures r.Ok? ==> (|r.value| == |path| &&
      forall i :: 0 <= i < |path| ==> r.value[i] == NodeCoordinate(graph, path[i]).value)
    ensures r.Err? ==> exists i :: (0 <= i < |path| && NodeCoordinate(graph, path[i]) == Err(r.error) &&
      forall j :: 0 <= j < i ==> NodeCoordinate(graph, path[j]).Ok?)
  {
    var coordinates: seq<Json> := [];
    var i := 0;
    while i < |path|
      invariant 0 <= i <= |path| && |coordinates| == i
      invariant forall k :: 0 <= k < i ==> Resolved(graph, path[k], coordinates[k])
    {
      var c := NodeCoordinate(graph, path[i]);
      if c.Err? {
        return Err(c.error);
      }
      var extended := coordinates + [c.value];
      forall k | 0 <= k <= i
        ensures Resolved(graph, path[k], extended[k])
      {
        if k < i {
          assert extended[k] == coordinates[k];
        }
      }
      coordinates := extended;
      i := i + 1;
    }
    return Ok(coordinates);
  }

  /** The node `k` of the graph has the coordinate `c`. */
  predicate Resolved(graph: Fields, k: string, c: Json) {
    NodeCoordinate(graph, k) == Ok(c)
  }

  /** `{"lat": graph[k]["lat"], "lng": graph[k]["lng"]}`: a missing node or
      field raises `KeyError`, indexing a node entry that is not a
      dictionary `TypeError`. */
  function NodeCoordinate(graph: Fields, k: string): (r: Result<Json>)
    ensures r.Ok? <==> (HasKey(graph, k) && Get(graph, k).value.Obj? &&
      HasKey(Get(graph, k).value.fields, "lat") && HasKey(Get(graph, k).value.fields, "lng"))
    ensures r.Ok? ==> r.value == Obj([("lat", Get(Get(graph, k).value.fields, "lat").value),
                                      ("lng", Get(Get(graph, k).value.fields, "lng").value)])
    ensures r.Err? ==> r.error == (if HasKey(graph, k) && !Get(graph, k).value.Obj? then TypeError else KeyError)
  {
    match Get(graph, k)
    case None => Err(KeyError)
    case Some(Obj(node)) =>
      (match (Get(node, "lat"), Get(node, "lng"))
       case (Some(lat), Some(lng)) => Ok(Obj([("lat", lat), ("lng", lng)]))
       case _ => Err(KeyError))
    case Some(_) => Err(TypeError)
  }

  /** One `<tag>N: intent` match of `parse_tasks`' pattern
      `<tag>(\d+):\s*(.+?)(?=\n|$)`: the digits, the raw intent and the
      position just past the matched text. */
  datatype Match = Match(digits: string, intent: string, end: nat)

  /** The end of the run of digits starting at `from`. */
  function DigitsEnd(s: string, from: nat): (n: nat)
    requires from <= |s|
    ensures from <= n <= |s| && (forall i :: from <= i < n ==> IsDigit(s[i])) && (n < |s| ==> !IsDigit(s[n]))
    decreases |s| - from
  {
    if from < |s| && IsDigit(s[from]) then DigitsEnd(s, from + 1) else from
  }

  /** The end of the run of whitespace starting at `from` (`\s*`). */
  function SpacesEnd(s: string, from: nat): (n: nat)
    requires from <= |s|
    ensures from <= n <= |s| && (forall i :: from <= i < n ==> IsSpace(s[i])) && (n < |s| ==> !IsSpace(s[n]))
    decreases |s| - from
  {
    if from < |s| && IsSpace(s[from]) then SpacesEnd(s, from + 1) else from
  }

  /** The end of the line holding position `from`: the next newline, or
      the end of the text. */
  function LineEnd(s: string, from: nat): (n: nat)
    requires from <= |s|
    ensures from <= n <= |s| && (forall i :: from <= i < n ==> s[i] != '\n') && (n < |s| ==> s[n] == '\n')
    decreases |s| - from
  {
    if from < |s| && s[from] != '\n' then LineEnd(s, from + 1) else from
  }

  /** The last position of `s` that is not a newline. */
  function LastNonNewline(s: string): (r: Option<nat>)
    ensures r.Some? ==> (r.value < |s| && s[r.value] != '\n' && forall i :: r.value < i < |s| ==> s[i] == '\n')
    ensures r.None? ==> forall i :: 0 <= i < |s| ==> s[i] == '\n'
  {
    if s == [] then None
    else if s[|s| - 1] != '\n' then Some(|s| - 1)
    else LastNonNewline(s[..|s| - 1])
  }

  /** The match of the pattern at position `at` of `s`, if any. `\d+`
      takes the whole digit run, which a ':' must follow. `\s*` is greedy:
      when a non-space character follows the spaces, the intent runs from
      it to the end of its line; when only whitespace remains, the engine
      backs off to the last character that is not a newline, which becomes
      a one-character intent, and with only newlines left there is no
      match. */
  function MatchAt(s: string, at: nat, tag: string): (r: Option<Match>)
    requires at <= |s|
    ensures r.Some? ==> (at < r.value.end <= |s| && r.value.digits != [] &&
      forall i :: 0 <= i < |r.value.digits| ==> IsDigit(r.value.digits[i]))
  {
    if at + |tag| > |s| || s[at..at + |tag|] != tag then None
    else
      var d := at + |tag|;
      var n := DigitsEnd(s, d);
      if n == d || n == |s| || s[n] != ':' then None
      else
        var w := SpacesEnd(s, n + 1);
        if w < |s| then Some(Match(s[d..n], s[w..LineEnd(s, w)], LineEnd(s, w)))
        else match LastNonNewline(s)
          case Some(q) => if q > n then Some(Match(s[d..n], [s[q]], q + 1)) else None
          case None => None
  }

  /** `re.findall` from position `from`: the matches from left to right,
      each search resuming where the previous match ended. */
  function FindAll(s: string, tag: string, from: nat): (r: seq<Match>)
    requires from <= |s|
    ensures forall i :: 0 <= i < |r| ==> (r[i].digits != [] &&
      forall j :: 0 <= j < |r[i].digits| ==> IsDigit(r[i].digits[j]))
    decreases |s| - from
  {
    if from == |s| then []
    else match MatchAt(s, from, tag)
      case Some(m) => [m] + FindAll(s, tag, m.end)
      case None => FindAll(s, tag, from + 1)
  }

  /** A sub-task of a generated item; the fixed template fields around it
      (empty strings and dictionaries, the evaluation block, the start
      url) are constants. */
  datatype SubTask = SubTask(subTaskId: nat, intent: string, subtaskType: string)

  /** The sub-tasks the matches of one kind give: `int(N)`, the stripped
      intent, the kind. */
  function Tasks(ms: seq<Match>, kind: string): (r: seq<SubTask>)
    requires forall i :: 0 <= i < |ms| ==> forall j :: 0 <= j < |ms[i].digits| ==> IsDigit(ms[i].digits[j])
    ensures |r| == |ms|
  {
    seq(|ms|, i requires 0 <= i < |ms| => SubTask(Decimal(ms[i].digits), Strip(ms[i].intent), kind))
  }

  /** The two lists `parse_tasks` returns. */
  datatype TaskLists = TaskLists(embodied: seq<SubTask>, web: seq<SubTask>)

  const EmbodiedTag := "embodied_task_intent_"
  const WebTag := "web_task_intent_"

  /** `parse_tasks`: one sub-task per match of each pattern, appended in
      the order the matches occur in the text. */
  method ParseTasks(text: string) returns (r: TaskLists)
    ensures r.embodied == Tasks(FindAll(text, EmbodiedTag, 0), "embodied")
    ensures r.web == Tasks(FindAll(text, WebTag, 0), "web")
  {
    var embodied := AppendTasks(FindAll(text, EmbodiedTag, 0), "embodied");
    var web := AppendTasks(FindAll(text, WebTag, 0), "web");
    r := TaskLists(embodied, web);
  }

  /** The loop of `parse_tasks` over the matches of one pattern. */
  method AppendTasks(ms: seq<Match>, kind: string) returns (tasks: seq<SubTask>)
    requires forall i :: 0 <= i < |ms| ==> forall j :: 0 <= j < |ms[i].digits| ==> IsDigit(ms[i].digits[j])
    ensures tasks == Tasks(ms, kind)
  {
    tasks := [];
    var i := 0;
    while i < |ms|
      invariant 0 <= i <= |ms| && tasks == Tasks(ms[..i], kind)
    {
      assert ms[..i + 1][..i] == ms[..i];
      tasks := tasks + [SubTask(Decimal(ms[i].digits), Strip(ms[i].intent), kind)];
      i := i + 1;
    }
    assert ms[..i] == ms;
  }

  /** A line that lists a sub-task, `<tag>N: intent`, given by its digits
      and its intent. */
  function Line(tag: string, digits: string, intent: string): string {
    tag + digits + ": " + intent
  }

  /** Lines one after the other, separated by newlines. */
  function Lines(tag: string, rs: seq<(string, string)>): string
    decreases |rs|
  {
    if rs == [] then []
    else if |rs| == 1 then Line(tag, rs[0].0, rs[0].1)
    else Line(tag, rs[0].0, rs[0].1) + "\n" + Lines(tag, rs[1..])
  }

  /** The lines listing sub-tasks: `<tag>N: intent`, N written in
      decimal. */
  function TaskLines(tag: string, ts: seq<SubTask>): string {
    Lines(tag, Raw(ts))
  }

  /** The (digits, intent) of each sub-task. */
  function Raw(ts: seq<SubTask>): (rs: seq<(string, string)>)
    ensures |rs| == |ts|
    ensures forall i :: 0 <= i < |ts| ==> rs[i] == (NatDigits(ts[i].subTaskId), ts[i].intent)
  {
    seq(|ts|, i requires 0 <= i < |ts| => (NatDigits(ts[i].subTaskId), ts[i].intent))
  }

  /** An intent a line can carry: non-empty, on one line, with no
      surrounding whitespace. */
  predicate Listable(t: SubTask, kind: string) {
    t.intent != [] && '\n' !in t.intent && !IsSpace(t.intent[0]) && !IsSpace(t.intent[|t.intent| - 1]) &&
    t.subtaskType == kind
  }

  /** A line the pattern reads as a whole: a number and a non-empty
      one-line intent that starts with a non-space. */
  predicate Readable(r: (string, string)) {
    r.0 != [] && (forall i :: 0 <= i < |r.0| ==> IsDigit(r.0[i])) &&
    r.1 != [] && '\n' !in r.1 && !IsSpace(r.1[0])
  }

  /** Listing sub-tasks one per line and parsing the text gives them back,
      in order. */
  lemma ParseTasksRoundTrip(embodied: seq<SubTask>, web: seq<SubTask>)
    requires forall i :: 0 <= i < |embodied| ==> Listable(embodied[i], "embodied")
    requires forall i :: 0 <= i < |web| ==> Listable(web[i], "web")
    ensures Tasks(FindAll(TaskLines(EmbodiedTag, embodied), EmbodiedTag, 0), "embodied") == embodied
    ensures Tasks(FindAll(TaskLines(WebTag, web), WebTag, 0), "web") == web
  {
    TasksRoundTrip(EmbodiedTag, "embodied", embodied);
    TasksRoundTrip(WebTag, "web", web);
  }

  /** The round trip for one kind of sub-task. */
  lemma TasksRoundTrip(tag: string, kind: string, ts: seq<SubTask>)
    requires tag != [] && tag[0] != '\n' && !IsDigit(tag[|tag| - 1])
    requires forall i :: 0 <= i < |ts| ==> Listable(ts[i], kind)
    ensures Tasks(FindAll(TaskLines(tag, ts), tag, 0), kind) == ts
  {
    var rs := Raw(ts);
    var text := Lines(tag, rs);
    assert forall i :: 0 <= i < |rs| ==> Readable(rs[i]);
    assert text[0..] == text;
    LinesFound(tag, text, 0, rs);
    TasksOfMatches(LineMatches(tag, rs, 0), ts, kind);
  }

  /** Matches carrying the sub-tasks' numbers and intents give back the
      sub-tasks. */
  lemma TasksOfMatches(ms: seq<Match>, ts: seq<SubTask>, kind: string)
    requires |ms| == |ts| && forall i :: 0 <= i < |ts| ==> Listable(ts[i], kind)
    requires forall i :: 0 <= i < |ts| ==> ms[i].digits == Raw(ts)[i].0 && ms[i].intent == Raw(ts)[i].1
    ensures forall i :: 0 <= i < |ms| ==> forall j :: 0 <= j < |ms[i].digits| ==> IsDigit(ms[i].digits[j])
    ensures Tasks(ms, kind) == ts
  {
    var r := Tasks(ms, kind);
    forall i | 0 <= i < |ts|
      ensures r[i] == ts[i]
    {
      TaskOfMatch(ms[i], ts[i], kind);
    }
  }

  /** The match of a sub-task's line reads back as the sub-task. */
  lemma TaskOfMatch(m: Match, t: SubTask, kind: string)
    requires Listable(t, kind) && m.digits == NatDigits(t.subTaskId) && m.intent == t.intent
    ensures SubTask(Decimal(m.digits), Strip(m.intent), kind) == t
  {
    DecimalNatDigits(t.subTaskId);
    StripUnchanged(t.intent);
  }

  /** The match a line written at `at` gives. */
  function LineMatch(tag: string, r: (string, string), at: nat): Match {
    Match(r.0, r.1, at + |tag| + |r.0| + 2 + |r.1|)
  }

  /** Where the pieces of the line `r` written at `at` sit in `s`: the
      tag, the digits, ": ", the intent, then a newline or the end. */
  predicate Written(s: string, at: nat, tag: string, r: (string, string)) {
    var d := at + |tag|;
    var n := d + |r.0|;
    var e := n + 2 + |r.1|;
    e <= |s| && s[at..d] == tag && s[d..n] == r.0 && s[n] == ':' && s[n + 1] == ' ' &&
    s[n + 2..e] == r.1 && (e < |s| ==> s[e] == '\n')
  }

  /** The matches of lines written from `at` on, one per line. */
  function LineMatches(tag: string, rs: seq<(string, string)>, at: nat): (ms: seq<Match>)
    ensures |ms| == |rs|
    ensures forall i :: 0 <= i < |rs| ==> ms[i].digits == rs[i].0 && ms[i].intent == rs[i].1
    decreases |rs|
  {
    if rs == [] then []
    else [LineMatch(tag, rs[0], at)] + LineMatches(tag, rs[1..], LineMatch(tag, rs[0], at).end + 1)
  }

  /** The lines filling `s` from `at` on are found one by one, each search
      resuming right after a line. */
  lemma {:induction false} LinesFound(tag: string, s: string, at: nat, rs: seq<(string, string)>)
    requires tag != [] && tag[0] != '\n' && !IsDigit(tag[|tag| - 1])
    requires forall i :: 0 <= i < |rs| ==> Readable(rs[i])
    requires at <= |s| && s[at..] == Lines(tag, rs)
    ensures FindAll(s, tag, at) == LineMatches(tag, rs, at)
    decreases |rs|
  {
    if rs != [] {
      if |rs| == 1 {
        LastLine(tag, s, at, rs[0]);
      } else {
        var m := LineMatch(tag, rs[0], at);
        LineStep(tag, s, at, rs);
        forall i | 0 <= i < |rs[1..]|
          ensures Readable(rs[1..][i])
        {
          assert rs[1..][i] == rs[i + 1];
        }
        LinesFound(tag, s, m.end + 1, rs[1..]);
      }
    }
  }

  /** The last line: its match is the only one left. */
  lemma LastLine(tag: string, s: string, at: nat, r: (string, string))
    requires tag != [] && !IsDigit(tag[|tag| - 1]) && Readable(r)
    requires at <= |s| && s[at..] == Line(tag, r.0, r.1)
    ensures FindAll(s, tag, at) == [LineMatch(tag, r, at)]
  {
    var line := Line(tag, r.0, r.1);
    var m := LineMatch(tag, r, at);
    assert m.end == at + |line| == |s|;
    LineLayout(tag, r, s, at);
    LineAt(tag, r, s, at);
    assert FindAll(s, tag, m.end) == [];
  }

  /** A line followed by more lines: its match comes first, and the search
      resumes after its newline, where the rest of the lines start. */
  lemma LineStep(tag: string, s: string, at: nat, rs: seq<(string, string)>)
    requires tag != [] && tag[0] != '\n' && !IsDigit(tag[|tag| - 1])
    requires |rs| >= 2 && Readable(rs[0])
    requires at <= |s| && s[at..] == Lines(tag, rs)
    ensures LineMatch(tag, rs[0], at).end < |s|
    ensures s[LineMatch(tag, rs[0], at).end + 1..] == Lines(tag, rs[1..])
    ensures FindAll(s, tag, at) == [LineMatch(tag, rs[0], at)] + FindAll(s, tag, LineMatch(tag, rs[0], at).end + 1)
  {
    var line := Line(tag, rs[0].0, rs[0].1);
    var m := LineMatch(tag, rs[0], at);
    var rest := Lines(tag, rs[1..]);
    assert m.end == at + |line|;
    assert s[at..at + |line|] == line && s[at + |line|] == '\n' && s[at + |line| + 1..] == rest by {
      assert s[at..] == line + "\n" + rest;
      assert (line + "\n" + rest)[..|line|] == line;
      assert (line + "\n" + rest)[|line| + 1..] == rest;
    }
    LineLayout(tag, rs[0], s, at);
    LineAt(tag, rs[0], s, at);
    NewlineSkipped(s, tag, m.end);
  }

  /** A search starting at a newline moves past it. */
  lemma NewlineSkipped(s: string, tag: string, at: nat)
    requires at < |s| && s[at] == '\n' && tag != [] && tag[0] != '\n'
    ensures FindAll(s, tag, at) == FindAll(s, tag, at + 1)
  {
    assert MatchAt(s, at, tag).None? by {
      assert at + |tag| <= |s| ==> s[at..at + |tag|][0] != tag[0];
    }
  }

  /** A line written at `at` and followed by a newline or the end of the
      text matches as a whole, and the search resumes right after it. */
  lemma LineAt(tag: string, r: (string, string), s: string, at: nat)
    requires tag != [] && !IsDigit(tag[|tag| - 1]) && Readable(r) && Written(s, at, tag, r)
    ensures LineMatch(tag, r, at).end <= |s|
    ensures FindAll(s, tag, at) == [LineMatch(tag, r, at)] + FindAll(s, tag, LineMatch(tag, r, at).end)
  {
    LineMatched(tag, r, s, at);
    FindAllAt(s, tag, at);
  }

  /** A search at a match takes it and resumes where it ends. */
  lemma FindAllAt(s: string, tag: string, from: nat)
    requires from < |s| && MatchAt(s, from, tag).Some?
    ensures FindAll(s, tag, from) == [MatchAt(s, from, tag).value] + FindAll(s, tag, MatchAt(s, from, tag).value.end)
  {
  }

  /** The pattern matches a line at its start. */
  lemma LineMatched(tag: string, r: (string, string), s: string, at: nat)
    requires tag != [] && !IsDigit(tag[|tag| - 1]) && Readable(r) && Written(s, at, tag, r)
    ensures at < |s| && MatchAt(s, at, tag) == Some(LineMatch(tag, r, at))
  {
    var d := at + |tag|;
    var n := d + |r.0|;
    var w := n + 2;
    var e := w + |r.1|;
    assert DigitsEnd(s, d) == n by {
      forall i | d <= i < n
        ensures IsDigit(s[i])
      {
        assert s[i] == s[d..n][i - d];
      }
    }
    assert SpacesEnd(s, n + 1) == w by {
      assert s[w] == s[w..e][0];
    }
    assert LineEnd(s, w) == e by {
      forall i | w <= i < e
        ensures s[i] != '\n'
      {
        assert s[i] == s[w..e][i - w];
      }
    }
    MatchAtOf(s, at, tag, n, w, e);
  }

  /** The match at `at`, given where its digits, its spaces and its line
      end. */
  lemma MatchAtOf(s: string, at: nat, tag: string, n: nat, w: nat, e: nat)
    requires at + |tag| <= |s| && s[at..at + |tag|] == tag
    requires DigitsEnd(s, at + |tag|) == n && at + |tag| < n < |s| && s[n] == ':'
    requires SpacesEnd(s, n + 1) == w && w < |s| && LineEnd(s, w) == e
    ensures MatchAt(s, at, tag) == Some(Match(s[at + |tag|..n], s[w..e], e))
  {
  }

  /** A line written at `at`, followed by a newline or the end of the
      text, has its pieces where `Written` says. */
  lemma LineLayout(tag: string, r: (string, string), s: string, at: nat)
    requires var line := Line(tag, r.0, r.1);
      at + |line| <= |s| && s[at..at + |line|] == line && (at + |line| < |s| ==> s[at + |line|] == '\n')
    ensures Written(s, at, tag, r)
  {
    var line := Line(tag, r.0, r.1);
    var d := at + |tag|;
    var n := d + |r.0|;
    var e := n + 2 + |r.1|;
    assert |line| == e - at;
    assert forall i :: 0 <= i < |line| ==> s[at + i] == line[i] by {
      forall i | 0 <= i < |line|
        ensures s[at + i] == line[i]
      {
        assert s[at..at + |line|][i] == s[at + i];
      }
    }
    assert s[at..d] == tag by {
      forall i | 0 <= i < |tag|
        ensures s[at + i] == tag[i]
      {
        assert line[i] == tag[i];
      }
    }
    assert s[d..n] == r.0 by {
      forall i | 0 <= i < |r.0|
        ensures s[d + i] == r.0[i]
      {
        assert line[|tag| + i] == r.0[i];
      }
    }
    assert s[n] == ':' && s[n + 1] == ' ' by {
      assert line[|tag| + |r.0|] == ':' && line[|tag| + |r.0| + 1] == ' ';
    }
    assert s[n + 2..e] == r.1 by {
      forall i | 0 <= i < |r.1|
        ensures s[n + 2 + i] == r.1[i]
      {
        assert line[|tag| + |r.0| + 2 + i] == r.1[i];
      }
    }
  }

  /** `convert_coordinate`: "" for a falsy value or one whose length is
      not 2, "(a, b)" from its two items otherwise; `len` of a number or
      of True raises `TypeError`. `repr` is Python's `str` on values that
      are not strings. */
  function ConvertCoordinate(coord: Json, repr: Json -> string): (r: Result<string>)
    ensures r.Err? <==> Truthy(coord) && !(coord.Arr? || coord.Str? || coord.Obj?)
    ensures r.Err? ==> r.error == TypeError
    ensures r.Ok? && r.value != "" ==> Pair(coord).Some?
    ensures Pair(coord).Some? ==>
      r == Ok("(" + Show(Pair(coord).value.0, repr) + ", " + Show(Pair(coord).value.1, repr) + ")")
  {
    if !Truthy(coord) then Ok("")
    else if !(coord.Arr? || coord.Str? || coord.Obj?) then Err(TypeError)
    else match Pair(coord)
      case None => Ok("")
      case Some((a, b)) => Ok("(" + Show(a, repr) + ", " + Show(b, repr) + ")")
  }

  /** `lat, lon = coord` for a value of length 2: the items of a list, the
      characters of a string, the keys of a dictionary. */
  function Pair(coord: Json): (r: Option<(Json, Json)>)
    ensures r.Some? <==> Iterated(coord).Some? && |Iterated(coord).value| == 2
  {
    match Iterated(coord)
    case Some(items) => if |items| == 2 then Some((items[0], items[1])) else None
    case None => None
  }

  /** `f"{x}"`: a string is itself, other values their `str`. */
  function Show(x: Json, repr: Json -> string): string {
    if x.Str? then x.s else repr(x)
  }

  /** `parse_coordinates` reads what `convert_coordinate` writes, provided
      the numbers' text holds no comma, does not start or end in a
      parenthesis, and `float` reads it back (the longitude after the
      space `convert_coordinate` puts before it). */
  lemma ConvertedCoordinateParses(lat: Json, lon: Json, repr: Json -> string, parseFloat: string -> Option<real>)
    requires var a := Show(lat, repr); var b := Show(lon, repr);
      ',' !in a && ',' !in b && a != [] && !TaskConstruction.IsParen(a[0]) && b != [] &&
      !TaskConstruction.IsParen(b[|b| - 1]) && parseFloat(a).Some? && parseFloat(" " + b).Some?
    ensures ConvertCoordinate(Arr([lat, lon]), repr).Ok?
    ensures TaskConstruction.ParseCoordinates(ConvertCoordinate(Arr([lat, lon]), repr).value, parseFloat) ==
      Ok((parseFloat(Show(lat, repr)).value, parseFloat(" " + Show(lon, repr)).value))
  {
    var a := Show(lat, repr);
    var b := " " + Show(lon, repr);
    assert ConvertCoordinate(Arr([lat, lon]), repr).value == ['('] + (a + [','] + b) + [')'] by {
      PairText(a, Show(lon, repr));
    }
    EnclosedPairParses(a, b, parseFloat);
  }

  /** `parse_coordinates` reads a comma-separated pair in parentheses. */
  lemma EnclosedPairParses(a: string, b: string, parseFloat: string -> Option<real>)
    requires ',' !in a && ',' !in b
    requires a != [] && !TaskConstruction.IsParen(a[0]) && b != [] && !TaskConstruction.IsParen(b[|b| - 1])
    requires parseFloat(a).Some? && parseFloat(b).Some?
    ensures TaskConstruction.ParseCoordinates(['('] + (a + [','] + b) + [')'], parseFloat) ==
      Ok((parseFloat(a).value, parseFloat(b).value))
  {
    var inner := a + [','] + b;
    assert inner[0] == a[0] && inner[|inner| - 1] == b[|b| - 1];
    StripWithEnclosed('(', inner, ')', TaskConstruction.IsParen);
    SplitPair(a, b, ',');
  }

  /** The text `convert_coordinate` writes is the comma-separated pair in
      parentheses. */
  lemma PairText(a: string, b: string)
    ensures "(" + a + ", " + b + ")" == ['('] + (a + [','] + (" " + b)) + [')']
  {
    var l := "(" + a + ", " + b + ")";
    var r := ['('] + (a + [','] + (" " + b)) + [')'];
    assert |l| == |r|;
    forall i | 0 <= i < |l|
      ensures l[i] == r[i]
    {
      if i == 0 {
      } else if i <= |a| {
        assert l[i] == a[i - 1] && r[i] == a[i - 1];
      } else if i <= |a| + 2 {
      } else if i < |l| - 1 {
        assert l[i] == b[i - |a| - 3] && r[i] == b[i - |a| - 3];
      }
    }
  }

  /** The dictionary `parse_tasks` builds for a sub-task: its number, its
      intent and its kind, inside the fixed template of that kind. */
  function TaskJson(t: SubTask): (j: Json)
    ensures j.Obj? && j.fields != []
    ensures j.fields[0] == ("sub_task_id", Int(t.subTaskId))
    ensures ("intent", Str(t.intent)) in j.fields
    ensures j.fields[|j.fields| - 1] == ("subtask_type", Str(if t.subtaskType == "embodied" then "embodied" else "web"))
  {
    if t.subtaskType == "embodied" then
      Obj([("sub_task_id", Int(t.subTaskId)), ("intent_template", Str("")), ("instantiation_dict", Obj([])),
           ("start", Str("")), ("end", Str("")), ("intermediate", Str("")), ("intent", Str(t.intent)),
           ("intent_template_id", Str("")),
           ("eval", Obj([("eval_types", Arr([Str("success_rate")])),
                         ("reference_answer_raw_annotation", Str("trajectory")),
                         ("reference_answers", Str("trajectory"))])),
           ("subtask_type", Str("embodied"))])
    else
      Obj([("sub_task_id", Int(t.subTaskId)), ("sites", Arr([Str("")])), ("require_login", Bool(false)),
           ("storage_state", Str("")), ("start_url", Str(StartUrl)), ("geolocation", Str("")),
           ("intent_template", Str("")), ("instantiation_dict", Obj([])), ("intent", Str(t.intent)),
           ("require_reset", Bool(false)), ("viewport_size", Obj([("width", Int(1280))])),
           ("intent_template_id", Str("")),
           ("eval", Obj([("eval_types", Arr([Str("url_match")])), ("reference_answers", Null),
                         ("reference_answer_raw_annotation", Null), ("reference_url", Str("")),
                         ("program_html", Arr([])), ("url_note", Str("EXACT"))])),
           ("subtask_type", Str("web"))])
  }

  const StartUrl := "http://98.80.38.242:3000/directions#map=7/41.652/-73.246&layers=Y"

  /** The list of sub-task dictionaries, in order. */
  function TaskJsons(ts: seq<SubTask>): (js: seq<Json>)
    ensures |js| == |ts| && forall i :: 0 <= i < |ts| ==> js[i] == TaskJson(ts[i])
  {
    seq(|ts|, i requires 0 <= i < |ts| => TaskJson(ts[i]))
  }

  /** `if parsed_tasks.get(key): anno_item[key] = parsed_tasks[key]`: a
      non-empty list replaces the entry, an empty one leaves the item as
      it was. */
  function WithTasks(item: Fields, key: string, tasks: seq<SubTask>): (r: Fields)
    ensures Get(r, key) == if tasks != [] then Some(Arr(TaskJsons(tasks))) else Get(item, key)
    ensures forall k :: k != key ==> Get(r, k) == Get(item, k)
  {
    if tasks == [] then item
    else
      SetOthers(item, key, Arr(TaskJsons(tasks)));
      Set(item, key, Arr(TaskJsons(tasks)))
  }

  /** Setting one key leaves every other key's value alone. */
  lemma SetOthers(fields: Fields, key: string, v: Json)
    ensures Get(Set(fields, key, v), key) == Some(v)
    ensures forall k :: k != key ==> Get(Set(fields, key, v), k) == Get(fields, k)
  {
    SetGet(fields, key, v, key);
    forall k | k != key
      ensures Get(Set(fields, key, v), k) == Get(fields, k)
    {
      SetGet(fields, key, v, k);
    }
  }

  /** `convert_item_with_tasks`: the tasks parsed from the text replace the
      item's `embodied` and `web` lists where there are any; every other
      entry of the item is kept. */
  method ConvertItemWithTasks(item: Fields, text: string) returns (r: Fields)
    ensures var embodied := Tasks(FindAll(text, EmbodiedTag, 0), "embodied");
      Get(r, "embodied") == if embodied != [] then Some(Arr(TaskJsons(embodied))) else Get(item, "embodied")
    ensures var web := Tasks(FindAll(text, WebTag, 0), "web");
      Get(r, "web") == if web != [] then Some(Arr(TaskJsons(web))) else Get(item, "web")
    ensures forall k :: k != "embodied" && k != "web" ==> Get(r, k) == Get(item, k)
  {
    var parsed := ParseTasks(text);
    r := WithTasks(item, "embodied", parsed.embodied);
    r := WithTasks(r, "web", parsed.web);
  }
}
