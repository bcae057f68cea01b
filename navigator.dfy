/** `navigate_environment` of
    models/outdoor/navigation/outdoor_navigation.py: a step-bounded walk
    over the panorama graph of a task environment. Each step records the
    current position, collects the linked neighbours with their headings
    relative to the agent and their distances, charges the distance of
    the most forward-facing neighbour against the current instruction,
    asks the decision model for the next node and moves there only if it
    is an unvisited linked neighbour.

    The decision model is the parameter `oracle` (given the step number,
    the current node, the visited list and the action the prompt asks
    for); geodesy is the parameter `haversine`; Python's `float` on text
    is `parseFloat`. */
module Navigator {
  import opened Wrappers
  import opened PanoGraph
  import opened Angles
  import opened Directions

  type Haversine = (real, real, real, real) -> real

  /** The decision model: (step, current node, visited, action prompt)
      to (chosen node, token usage). */
  type Oracle = (nat, string, seq<string>, Action) -> (string, int)

  /** One entry of `neighbors`. */
  datatype Neighbour = Neighbour(key: string, absHeading: real, relHeading: real, dist: real)

  /** What the function returns: the bare dict on arrival, otherwise the
      (dict, trajectory) pair. */
  datatype Outcome =
    | Arrived(finalNode: string, visited: seq<string>)
    | Finished(finalNode: string, finalDistance: real, visited: seq<string>,
               tokenUsage: int, trajectory: seq<(real, real)>)

  /** The loop variables. `tokenUsage` and `actionPrompt` are None while
      the Python variables are still unbound. */
  datatype Walker = Walker(curr: string, visited: seq<string>, trajectory: seq<(real, real)>,
                           dirIdx: nat, remaining: real, heading: real,
                           tokenUsage: Option<int>, actionPrompt: Option<Action>)

  datatype StepOutcome = Continue(w: Walker) | Arrive(w: Walker) | Stop(w: Walker) | Fail(error: Error)

  function Last(s: seq<string>): string
    requires s != []
  {
    s[|s| - 1]
  }

  predicate Linked(g: Graph, a: string, b: string) {
    a in g.nodes && b in g.nodes[a].links
  }

  /** The visited list and the trajectory so far: distinct graph keys from
      `source` on, each linked to the next, with one recorded position per
      visited node. */
  ghost predicate Trail(g: Graph, source: string, visited: seq<string>, trajectory: seq<(real, real)>) {
    Distinct(visited) && |trajectory| == |visited| &&
    (visited != [] ==> visited[0] == source) &&
    (forall i :: 0 <= i < |visited| ==>
       visited[i] in g.nodes && trajectory[i] == (g.nodes[visited[i]].lat, g.nodes[visited[i]].lng)) &&
    (forall i, j :: 0 <= i && j == i + 1 && j < |visited| ==> Linked(g, visited[i], visited[j]))
  }

  /** The invariant at the top of every iteration: the current node is
      never in `visited`; after a move it is linked from the last visited
      node and the heading is that of the edge taken. */
  ghost predicate WalkInv(g: Graph, source: string, initialHeading: real, dirs: seq<Direction>, w: Walker) {
    Trail(g, source, w.visited, w.trajectory) && w.curr !in w.visited && w.dirIdx < |dirs| &&
    (w.visited == [] ==> w.curr == source && w.heading == initialHeading && w.tokenUsage.None?) &&
    (w.visited != [] ==> w.tokenUsage.Some? && w.actionPrompt.Some? &&
                         Linked(g, Last(w.visited), w.curr) &&
                         w.heading == g.nodes[Last(w.visited)].links[w.curr].heading)
  }

  /** Where a run that did not arrive ends: at the source before any move,
      at the last visited node after a break, or at an unvisited linked
      neighbour of it when the steps ran out. */
  ghost predicate Settled(g: Graph, source: string, w: Walker) {
    Trail(g, source, w.visited, w.trajectory) &&
    (w.visited == [] ==> w.curr == source) &&
    (w.visited != [] ==> w.curr == Last(w.visited) || (Linked(g, Last(w.visited), w.curr) && w.curr !in w.visited))
  }

  /** `token_usage` is what the decision model answered at the last
      iteration, the one that visited every node of `w.visited`. */
  ghost predicate CalledLast(oracle: Oracle, w: Walker) {
    w.tokenUsage.Some? ==>
      w.actionPrompt.Some? && w.visited != [] &&
      w.tokenUsage.value == oracle(|w.visited| - 1, Last(w.visited), w.visited, w.actionPrompt.value).1
  }

  /** The reported token usage is the decision model's answer at the last
      step that consulted it, which is the last step of the run or the one
      before: the call at step `n - 1`, at node `visited[n - 1]`, with the
      first `n` visited nodes. */
  ghost predicate TokensReported(oracle: Oracle, visited: seq<string>, tokens: int) {
    exists n: nat, p: Action :: 1 <= n <= |visited| && |visited| - 1 <= n &&
      tokens == TokensAt(oracle, visited, n, p)
  }

  /** The token usage the decision model answers at step `n - 1`. */
  ghost function TokensAt(oracle: Oracle, visited: seq<string>, n: nat, p: Action): int
    requires 1 <= n <= |visited|
  {
    oracle(n - 1, visited[n - 1], visited[..n], p).1
  }

  /** An iteration that continues leaves the token usage of its own call;
      one that stops reports its own call or the one before. */
  lemma TokensStep(g: Graph, source: string, target: string, initialHeading: real,
                   dirs: seq<Direction>, parseFloat: string -> Option<real>, haversine: Haversine,
                   oracle: Oracle, step: nat, w: Walker, o: StepOutcome)
    requires WellFormed(g) && WalkInv(g, source, initialHeading, dirs, w) && step == |w.visited|
    requires StepSpec(g, source, target, initialHeading, dirs, parseFloat, haversine, oracle, step, w, o)
    requires CalledLast(oracle, w)
    ensures o.Continue? ==> CalledLast(oracle, o.w)
    ensures o.Stop? && o.w.tokenUsage.Some? ==> TokensReported(oracle, o.w.visited, o.w.tokenUsage.value)
  {
    if o.Continue? || o.Stop? {
      var node := g.nodes[w.curr];
      assert w.curr != target && AllParse(node, parseFloat) && node.linkOrder != [];
      var nbs := Neighbours(node, w.heading, parseFloat, haversine);
      TokensDecide(g, source, initialHeading, dirs, oracle, w, w.trajectory + [(node.lat, node.lng)],
                   nbs[BestIndex(nbs)].dist, o);
    }
  }

  /** `TokensStep` for the decision taken once the node's neighbours are known. */
  lemma TokensDecide(g: Graph, source: string, initialHeading: real, dirs: seq<Direction>, oracle: Oracle,
                     w: Walker, trajectory: seq<(real, real)>, traveled: real, o: StepOutcome)
    requires w.curr in g.nodes && w.dirIdx < |dirs|
    requires DecideSpec(g, source, initialHeading, dirs, oracle, |w.visited|, w, w.visited + [w.curr],
                        trajectory, traveled, o)
    requires CalledLast(oracle, w)
    ensures o.Continue? ==> CalledLast(oracle, o.w)
    ensures o.Stop? && o.w.tokenUsage.Some? ==> TokensReported(oracle, o.w.visited, o.w.tokenUsage.value)
  {
    var visited := w.visited + [w.curr];
    var adv := Advance(dirs, w.dirIdx, w.remaining, traveled);
    if adv.None? {
      if o.w.tokenUsage.Some? {
        var n := |w.visited|;
        assert visited[..n] == w.visited;
        assert o.w.tokenUsage.value == TokensAt(oracle, visited, n, w.actionPrompt.value);
      }
    } else if !o.Fail? {
      var prompt := NextPrompt(adv.value.2, dirs[adv.value.0].action, w.actionPrompt);
      assert visited[..|visited|] == visited;
      assert o.w.tokenUsage.value == TokensAt(oracle, visited, |visited|, prompt.value);
    }
  }

  /** A run whose steps ran out reports the last iteration's call. */
  lemma CalledLastReported(oracle: Oracle, w: Walker)
    requires CalledLast(oracle, w) && w.tokenUsage.Some?
    ensures TokensReported(oracle, w.visited, w.tokenUsage.value)
  {
    assert w.visited[..|w.visited|] == w.visited;
    assert w.tokenUsage.value == TokensAt(oracle, w.visited, |w.visited|, w.actionPrompt.value);
  }

  lemma InvSettled(g: Graph, source: string, initialHeading: real, dirs: seq<Direction>, w: Walker)
    requires WalkInv(g, source, initialHeading, dirs, w)
    ensures Settled(g, source, w)
  {
  }

  /** The sort key of `min`: the angular distance from straight ahead. */
  function Deviation(n: Neighbour): real {
    AngularDiff(n.relHeading, 0.0)
  }

  /** `min(neighbors, key=...)` on a non-empty list: the first neighbour of
      least deviation. */
  function BestIndex(nbs: seq<Neighbour>): (i: nat)
    requires |nbs| > 0
    ensures i < |nbs|
    ensures forall j :: 0 <= j < |nbs| ==> Deviation(nbs[i]) <= Deviation(nbs[j])
    ensures forall j :: 0 <= j < i ==> Deviation(nbs[j]) > Deviation(nbs[i])
  {
    if |nbs| == 1 then 0
    else
      var k := BestIndex(nbs[..|nbs| - 1]);
      if Deviation(nbs[|nbs| - 1]) < Deviation(nbs[k]) then |nbs| - 1 else k
  }

  /** Every link key of `node` parses as a coordinate. */
  ghost predicate AllParse(node: Node, parseFloat: string -> Option<real>) {
    forall i :: 0 <= i < |node.linkOrder| ==> ParseCoord(node.linkOrder[i], parseFloat).Ok?
  }

  /** The neighbour entry of the link `key`. */
  function NeighbourOf(node: Node, heading: real, parseFloat: string -> Option<real>, haversine: Haversine,
                       key: string): Neighbour
    requires key in node.links && ParseCoord(key, parseFloat).Ok?
  {
    var c := ParseCoord(key, parseFloat).value;
    Neighbour(key, node.links[key].heading, RealMod(node.links[key].heading - heading + 360.0, 360.0),
              haversine(node.lat, node.lng, c.0, c.1))
  }

  /** The `neighbors` list, when every link key parses. */
  ghost function Neighbours(node: Node, heading: real, parseFloat: string -> Option<real>, haversine: Haversine)
    : seq<Neighbour>
    requires WellFormedNode(node) && AllParse(node, parseFloat)
  {
    seq(|node.linkOrder|, i requires 0 <= i < |node.linkOrder| =>
      NeighbourOf(node, heading, parseFloat, haversine, node.linkOrder[i]))
  }

  /** The `neighbors` list built from a node's links in insertion order;
      `parse_coord` of a link key raises ValueError. */
  method BuildNeighbours(node: Node, heading: real, parseFloat: string -> Option<real>, haversine: Haversine)
    returns (r: Result<seq<Neighbour>>)
    requires WellFormedNode(node)
    ensures r.Ok? <==> AllParse(node, parseFloat)
    ensures r.Err? ==> r.error.ValueError?
    ensures r.Ok? ==> r.value == Neighbours(node, heading, parseFloat, haversine)
  {
    var nbs: seq<Neighbour> := [];
    var i := 0;
    while i < |node.linkOrder|
      invariant 0 <= i <= |node.linkOrder| && |nbs| == i
      invariant forall k :: 0 <= k < i ==> ParseCoord(node.linkOrder[k], parseFloat).Ok?
      invariant forall k :: 0 <= k < i ==> nbs[k] == NeighbourOf(node, heading, parseFloat, haversine, node.linkOrder[k])
    {
      var key := node.linkOrder[i];
      var c := ParseCoord(key, parseFloat);
      if c.Err? {
        return Err(c.error);
      }
      var abs := node.links[key].heading;
      nbs := nbs + [Neighbour(key, abs, RealMod(abs - heading + 360.0, 360.0),
                              haversine(node.lat, node.lng, c.value.0, c.value.1))];
      i := i + 1;
    }
    return Ok(nbs);
  }

  /** The action prompt of one step: "straight" unless an instruction was
      just taken; a taken left or right sets it; a taken straight leaves
      the previous prompt, which is unbound on the first step. */
  function NextPrompt(takeAction: bool, action: Action, previous: Option<Action>): (r: Option<Action>)
    ensures !takeAction ==> r == Some(Straight)
    ensures takeAction && !action.Straight? ==> r == Some(action)
    ensures takeAction && action.Straight? ==> r == previous
  {
    if !takeAction then Some(Straight)
    else match action
      case Left => Some(Left)
      case Right => Some(Right)
      case Straight => previous
  }

  /** What one iteration promises: a move keeps the invariant, goes to
      an unvisited linked neighbour and either keeps the instruction with a
      remaining distance no larger in magnitude or advances to the next
      instruction with its full distance; arrival happens only at the
      target; a break leaves the current node last in `visited`. */
  ghost predicate StepSpec(g: Graph, source: string, target: string, initialHeading: real,
                           dirs: seq<Direction>, parseFloat: string -> Option<real>, haversine: Haversine,
                           oracle: Oracle, step: nat, w: Walker, o: StepOutcome)
    requires WellFormed(g) && w.dirIdx < |dirs|
  {
    (w.curr !in g.nodes ==> o == Fail(KeyError)) &&
    (w.curr in g.nodes ==>
       var node := g.nodes[w.curr];
       var trajectory := w.trajectory + [(node.lat, node.lng)];
       (w.curr == target ==> o == Arrive(w.(trajectory := trajectory))) &&
       (w.curr != target && !AllParse(node, parseFloat) ==> o.Fail? && o.error.ValueError?) &&
       (w.curr != target && AllParse(node, parseFloat) && node.linkOrder == [] ==>
          o == Fail(ValueError("min() arg is an empty sequence"))) &&
       (w.curr != target && AllParse(node, parseFloat) && node.linkOrder != [] ==>
          var nbs := Neighbours(node, w.heading, parseFloat, haversine);
          DecideSpec(g, source, initialHeading, dirs, oracle, step, w, w.visited + [w.curr], trajectory,
                     nbs[BestIndex(nbs)].dist, o))) &&
    (o.Continue? ==> (WalkInv(g, source, initialHeading, dirs, o.w) &&
                      o.w.visited == w.visited + [w.curr] && Linked(g, w.curr, o.w.curr) &&
                      ((o.w.dirIdx == w.dirIdx && Abs(o.w.remaining) <= Abs(w.remaining)) ||
                       (o.w.dirIdx == w.dirIdx + 1 && o.w.remaining == dirs[o.w.dirIdx].distance)))) &&
    (o.Arrive? ==> w.curr == target && o.w.visited == w.visited && o.w.curr == target) &&
    (o.Stop? ==> Settled(g, source, o.w) && o.w.visited == w.visited + [w.curr] && o.w.curr == w.curr) &&
    (o.Fail? && w.curr !in g.nodes ==> o.error == KeyError)
  }

  /** Recording the current node extends the trail. */
  lemma TrailExtend(g: Graph, source: string, initialHeading: real, dirs: seq<Direction>, w: Walker)
    requires WalkInv(g, source, initialHeading, dirs, w) && w.curr in g.nodes
    ensures Trail(g, source, w.visited + [w.curr],
                  w.trajectory + [(g.nodes[w.curr].lat, g.nodes[w.curr].lng)])
  {
    var visited := w.visited + [w.curr];
    var trajectory := w.trajectory + [(g.nodes[w.curr].lat, g.nodes[w.curr].lng)];
    forall i, j | 0 <= i && j == i + 1 && j < |visited|
      ensures Linked(g, visited[i], visited[j])
    {
      if j < |w.visited| {
        assert visited[i] == w.visited[i] && visited[j] == w.visited[j];
      }
    }
  }

  /** One iteration of the loop body. */
  method Step(g: Graph, source: string, target: string, initialHeading: real, dirs: seq<Direction>,
              parseFloat: string -> Option<real>, haversine: Haversine, oracle: Oracle,
              step: nat, w: Walker) returns (o: StepOutcome)
    requires WellFormed(g)
    requires WalkInv(g, source, initialHeading, dirs, w)
    ensures StepSpec(g, source, target, initialHeading, dirs, parseFloat, haversine, oracle, step, w, o)
  {
    if w.curr !in g.nodes {
      return Fail(KeyError);
    }
    var node := g.nodes[w.curr];
    var trajectory := w.trajectory + [(node.lat, node.lng)];
    if w.curr == target {
      return Arrive(w.(trajectory := trajectory));
    }
    // The loop-detection break can never fire: the current node is not
    // in `visited`.
    if |w.visited| >= 2 && w.curr == w.visited[|w.visited| - 2] {
      assert false;
    }
    var visited := w.visited + [w.curr];
    TrailExtend(g, source, initialHeading, dirs, w);
    var nbs := BuildNeighbours(node, w.heading, parseFloat, haversine);
    if nbs.Err? {
      return Fail(nbs.error);
    }
    if |nbs.value| == 0 {
      return Fail(ValueError("min() arg is an empty sequence"));
    }
    var best := nbs.value[BestIndex(nbs.value)];
    o := Decide(g, source, initialHeading, dirs, oracle, step, w, visited, trajectory, best.dist);
  }

  /** The instruction bookkeeping after travelling `traveled`: when the
      remaining distance grows in magnitude the next instruction is taken
      with its full distance (None when there is none left); otherwise
      the instruction stays and the distance is charged against it. The
      result is (instruction index, remaining distance, instruction taken). */
  function Advance(dirs: seq<Direction>, dirIdx: nat, remaining: real, traveled: real): (r: Option<(nat, real, bool)>)
    requires dirIdx < |dirs|
    ensures r.None? <==> Abs(remaining - traveled) > Abs(remaining) && dirIdx + 1 == |dirs|
    ensures r.Some? ==> r.value.0 < |dirs|
    ensures r.Some? && !r.value.2 ==>
      r.value.0 == dirIdx && r.value.1 == remaining - traveled && Abs(r.value.1) <= Abs(remaining)
    ensures r.Some? && r.value.2 ==>
      r.value.0 == dirIdx + 1 && r.value.1 == dirs[dirIdx + 1].distance && Abs(remaining - traveled) > Abs(remaining)
  {
    var rem := remaining - traveled;
    if Abs(rem) > Abs(remaining) then
      if dirIdx + 1 < |dirs| then Some((dirIdx + 1, dirs[dirIdx + 1].distance, true)) else None
    else Some((dirIdx, rem, false))
  }

  /** What the second half of an iteration promises: the run stops when
      the instructions run out, fails exactly when the prompt is unbound,
      and otherwise moves to the model's choice exactly when that is an
      unvisited link of the current node, with the advanced instruction
      bookkeeping either way. */
  ghost predicate DecideSpec(g: Graph, source: string, initialHeading: real, dirs: seq<Direction>, oracle: Oracle,
                             step: nat, w: Walker, visited: seq<string>, trajectory: seq<(real, real)>,
                             traveled: real, o: StepOutcome)
    requires w.curr in g.nodes && w.dirIdx < |dirs|
  {
    var adv := Advance(dirs, w.dirIdx, w.remaining, traveled);
    var prompt := if adv.None? then None else NextPrompt(adv.value.2, dirs[adv.value.0].action, w.actionPrompt);
    (adv.None? ==> o == Stop(w.(visited := visited, trajectory := trajectory))) &&
    (o.Fail? <==> adv.Some? && prompt.None?) &&
    (o.Fail? ==> o.error == UnboundLocalError("action_prompt")) &&
    (adv.Some? && prompt.Some? ==>
       var (choice, tokens) := oracle(step, w.curr, visited, prompt.value);
       var links := g.nodes[w.curr].links;
       (o.Continue? <==> choice in links && choice !in visited) &&
       (o.Continue? ==> o.w.curr == choice && o.w.heading == links[choice].heading) &&
       (o.Stop? ==> o.w.curr == w.curr && o.w.heading == w.heading) &&
       (!o.Fail? ==> o.w.visited == visited && o.w.trajectory == trajectory && o.w.dirIdx == adv.value.0 &&
                     o.w.remaining == adv.value.1 && o.w.tokenUsage == Some(tokens) && o.w.actionPrompt == prompt)) &&
    !o.Arrive? &&
    (o.Continue? ==> (WalkInv(g, source, initialHeading, dirs, o.w) &&
                      o.w.visited == visited && Linked(g, w.curr, o.w.curr) &&
                      ((o.w.dirIdx == w.dirIdx && Abs(o.w.remaining) <= Abs(w.remaining)) ||
                       (o.w.dirIdx == w.dirIdx + 1 && o.w.remaining == dirs[o.w.dirIdx].distance)))) &&
    (o.Stop? ==> Settled(g, source, o.w) && o.w.visited == visited && o.w.curr == w.curr)
  }

  /** From the instruction bookkeeping to the move: the prompt, the call
      to the decision model and the validation of its choice. */
  method Decide(g: Graph, source: string, initialHeading: real, dirs: seq<Direction>, oracle: Oracle,
                step: nat, w: Walker, visited: seq<string>, trajectory: seq<(real, real)>, traveled: real)
    returns (o: StepOutcome)
    requires w.curr in g.nodes && w.dirIdx < |dirs|
    requires visited == w.visited + [w.curr] && Trail(g, source, visited, trajectory)
    ensures DecideSpec(g, source, initialHeading, dirs, oracle, step, w, visited, trajectory, traveled, o)
  {
    var adv := Advance(dirs, w.dirIdx, w.remaining, traveled);
    if adv.None? {
      return Stop(w.(visited := visited, trajectory := trajectory));
    }
    var (dirIdx, remaining, takeAction) := adv.value;
    var prompt := NextPrompt(takeAction, dirs[dirIdx].action, w.actionPrompt);
    if prompt.None? {
      return Fail(UnboundLocalError("action_prompt"));
    }
    var (choice, tokens) := oracle(step, w.curr, visited, prompt.value);
    var next := Walker(w.curr, visited, trajectory, dirIdx, remaining, w.heading, Some(tokens), prompt);
    var links := g.nodes[w.curr].links;
    if choice in links && choice !in visited {
      return Continue(next.(curr := choice, heading := links[choice].heading));
    }
    return Stop(next);
  }

  /** `navigate_environment(env, parsed_directions, ...)` with the
      environment's graph, source and target keys. */
  method NavigateEnvironment(g: Graph, source: string, target: string, dirs: seq<Direction>,
                             maxSteps: int, initialHeading: real,
                             parseFloat: string -> Option<real>, haversine: Haversine, oracle: Oracle)
    returns (r: Result<Outcome>)
    requires WellFormed(g)
    ensures ParseCoord(target, parseFloat).Err? ==> r.Err?
    ensures ParseCoord(target, parseFloat).Ok? && dirs == [] ==> r == Err(IndexError)
    ensures ParseCoord(target, parseFloat).Ok? && dirs != [] && maxSteps <= 0 ==> r.Err?
    ensures r.Ok? && r.value.Arrived? ==>
      r.value.finalNode == target && r.value.finalNode !in r.value.visited &&
      Distinct(r.value.visited) && |r.value.visited| < maxSteps
    ensures r.Ok? && r.value.Finished? ==>
      Settled(g, source, Walker(r.value.finalNode, r.value.visited, r.value.trajectory, 0, 0.0, 0.0, None, None)) &&
      |r.value.visited| <= maxSteps
    ensures r.Ok? && r.value.Finished? ==>
      var fc := ParseCoord(r.value.finalNode, parseFloat);
      var tc := ParseCoord(target, parseFloat);
      fc.Ok? && tc.Ok? && r.value.finalDistance == haversine(fc.value.0, fc.value.1, tc.value.0, tc.value.1) &&
      TokensReported(oracle, r.value.visited, r.value.tokenUsage)
  {
    var tc := ParseCoord(target, parseFloat);
    if tc.Err? {
      return Err(tc.error);
    }
    if dirs == [] {
      return Err(IndexError);
    }
    var w := Walker(source, [], [], 0, dirs[0].distance, initialHeading, None, None);
    var step := 0;
    var stopped := false;
    while step < maxSteps && !stopped
      invariant 0 <= step && |w.visited| == step && (step == 0 || step <= maxSteps)
      invariant !stopped ==> WalkInv(g, source, initialHeading, dirs, w)
      invariant stopped ==> Settled(g, source, w) && step >= 1
      invariant !stopped ==> CalledLast(oracle, w)
      invariant stopped && w.tokenUsage.Some? ==> TokensReported(oracle, w.visited, w.tokenUsage.value)
      decreases maxSteps - step
    {
      var o := Step(g, source, target, initialHeading, dirs, parseFloat, haversine, oracle, step, w);
      TokensStep(g, source, target, initialHeading, dirs, parseFloat, haversine, oracle, step, w, o);
      match o {
        case Fail(e) =>
          return Err(e);
        case Arrive(w') =>
          return Ok(Arrived(w'.curr, w'.visited));
        case Stop(w') =>
          w := w';
          stopped := true;
        case Continue(w') =>
          w := w';
      }
      step := step + 1;
    }
    if !stopped {
      InvSettled(g, source, initialHeading, dirs, w);
      if w.tokenUsage.Some? {
        CalledLastReported(oracle, w);
      }
    }
    r := Conclude(tc.value, w, parseFloat, haversine);
  }

  /** The code after the loop: `parse_coord` of the final node, its
      distance to the target, and the returned pair; `token_usage` is
      unbound when no step reached the decision model. */
  method Conclude(tcoord: (real, real), w: Walker, parseFloat: string -> Option<real>, haversine: Haversine)
    returns (r: Result<Outcome>)
    ensures r.Ok? <==> ParseCoord(w.curr, parseFloat).Ok? && w.tokenUsage.Some?
    ensures r.Ok? ==> (r.value.Finished? && r.value.finalNode == w.curr &&
                       r.value.visited == w.visited && r.value.trajectory == w.trajectory)
    ensures r.Ok? ==>
      var fc := ParseCoord(w.curr, parseFloat).value;
      r.value.finalDistance == haversine(fc.0, fc.1, tcoord.0, tcoord.1) && r.value.tokenUsage == w.tokenUsage.value
    ensures ParseCoord(w.curr, parseFloat).Err? ==> r == Err(ParseCoord(w.curr, parseFloat).error)
    ensures ParseCoord(w.curr, parseFloat).Ok? && w.tokenUsage.None? ==> r == Err(UnboundLocalError("token_usage"))
  {
    var fc := ParseCoord(w.curr, parseFloat);
    if fc.Err? {
      return Err(fc.error);
    }
    var finalDist := haversine(fc.value.0, fc.value.1, tcoord.0, tcoord.1);
    if w.tokenUsage.None? {
      return Err(UnboundLocalError("token_usage"));
    }
    return Ok(Finished(w.curr, finalDist, w.visited, w.tokenUsage.value, w.trajectory));
  }
}
