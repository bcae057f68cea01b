/** The geolocation runs (models/geolocation/pipeline.py): the agent looks
    at the initial standpoint, may query the web, and then moves to
    adjacent standpoints it has not visited until it is confident, no move
    is left, or its moves run out. */
module GeoPipeline {
  import opened Wrappers
  import opened Text
  import opened GeoAgent

  /** A Street View standpoint with its adjacent standpoints. */
  datatype Standpoint = Standpoint(id: string, latitude: string, longitude: string, adjacent: seq<Standpoint>)

  /** `get_coords`. */
  function Coords(n: Standpoint): string {
    n.latitude + ", " + n.longitude
  }

  /** `[adj_node.id for adj_node in node.adjacent]`. */
  function Ids(nodes: seq<Standpoint>): (r: seq<string>)
    ensures |r| == |nodes| && forall i :: 0 <= i < |nodes| ==> r[i] == nodes[i].id
  {
    seq(|nodes|, i requires 0 <= i < |nodes| => nodes[i].id)
  }

  const Headings: seq<int> := [0, 90, 180, 270]
  const Directions: seq<string> := ["north", "east", "south", "west"]

  /** The caption and the picture `add_images` adds for heading `k`. */
  function View(coords: string, style: string, k: nat): seq<Item>
    requires k < 4
  {
    var caption := "This is the view facing " + Directions[k] + ".";
    [if style == "gemini" then Value(Json.Str(caption)) else Value(TextMessage(caption)),
     Picture(coords, Headings[k])]
  }

  /** The views of the first `n` headings, in order. */
  function Views(coords: string, style: string, n: nat): (r: seq<Item>)
    requires n <= 4
    ensures |r| == 2 * n
    ensures forall k :: 0 <= k < n ==> r[2 * k + 1] == Picture(coords, Headings[k])
  {
    if n == 0 then [] else Views(coords, style, n - 1) + View(coords, style, n - 1)
  }

  /** `add_images`: a caption and a picture for each of the four headings,
      north first; the family's API style decides the caption's form. */
  method AddImages(t: Transcript, coords: string, family: string) returns (r: Result<()>)
    modifies t
    ensures t.webContext == old(t.webContext) && t.moveHistory == old(t.moveHistory)
    ensures match ModelFamilyToApiStyle(family)
      case Err(e) => r == Err(e) && t.images == old(t.images)
      case Ok(style) => r == Ok(()) && t.images == old(t.images) + Views(coords, style, 4)
  {
    var style := ModelFamilyToApiStyle(family);
    if style.Err? {
      return Err(style.error);
    }
    for k := 0 to 4
      invariant t.webContext == old(t.webContext) && t.moveHistory == old(t.moveHistory)
      invariant t.images == old(t.images) + Views(coords, style.value, k)
    {
      t.images := t.images + View(coords, style.value, k);
    }
    r := Ok(());
  }

  /** `f"Move[{id}]"`. */
  function MoveAction(id: string): string {
    "Move[" + id + "]"
  }

  /** The valid actions: a move to each adjacent id not yet visited, in
      adjacency order. */
  function ValidActions(ids: seq<string>, visited: seq<string>): (r: seq<string>)
    ensures |r| <= |ids|
  {
    if ids == [] then []
    else
      var last := ids[|ids| - 1];
      ValidActions(ids[..|ids| - 1], visited) + (if last !in visited then [MoveAction(last)] else [])
  }

  /** An action is valid iff it moves to an adjacent id not yet visited. */
  lemma {:induction false} ValidActionsMembers(ids: seq<string>, visited: seq<string>, a: string)
    ensures a in ValidActions(ids, visited) <==> exists i :: 0 <= i < |ids| && ids[i] !in visited && a == MoveAction(ids[i])
  {
    if ids != [] {
      var init := ids[..|ids| - 1];
      ValidActionsMembers(init, visited, a);
      assert forall i :: 0 <= i < |init| ==> init[i] == ids[i];
    }
  }

  /** Once every adjacent id is visited no action is valid. */
  lemma {:induction false} AllVisitedNoAction(ids: seq<string>, visited: seq<string>)
    requires forall id :: id in ids ==> id in visited
    ensures ValidActions(ids, visited) == []
  {
    if ids != [] {
      AllVisitedNoAction(ids[..|ids| - 1], visited);
    }
  }

  /** The loop that builds the valid actions. */
  method CollectValidActions(ids: seq<string>, visited: seq<string>) returns (valid: seq<string>)
    ensures valid == ValidActions(ids, visited)
  {
    valid := [];
    for i := 0 to |ids|
      invariant valid == ValidActions(ids[..i], visited)
    {
      assert ids[..i + 1][..i] == ids[..i];
      if ids[i] !in visited {
        valid := valid + [MoveAction(ids[i])];
      }
    }
    assert ids[..|ids|] == ids;
  }

  /** `re.search(r'Move\[(.*?)\]', action).group(1)` from position `k`:
      the text between the first "Move[" and the first ']' after it, on
      one line; without such a match `.group` fails on `None`. */
  function TargetFrom(action: string, k: nat): (r: Result<string>)
    ensures r.Ok? ==> ']' !in r.value && '\n' !in r.value
    ensures r.Err? ==> r.error == AttributeError
    decreases |action| - k
  {
    var i := FindSub(action, "Move[", k);
    if i == -1 then Err(AttributeError)
    else
      var j := FindFrom(action, ']', i + 5);
      if j != -1 && '\n' !in action[i + 5..j] then
        var v := action[i + 5..j];
        assert forall p :: 0 <= p < |v| ==> v[p] == action[i + 5 + p];
        Ok(v)
      else TargetFrom(action, i + 1)
  }

  function MoveTarget(action: string): Result<string> {
    TargetFrom(action, 0)
  }

  /** A panorama id without ']' or line breaks. */
  predicate WellFormed(id: string) {
    ']' !in id && '\n' !in id
  }

  /** The target of a move to a well-formed id is that id. */
  lemma MoveTargetOf(id: string)
    requires WellFormed(id)
    ensures MoveTarget(MoveAction(id)) == Ok(id)
  {
    var s := MoveAction(id);
    assert OccursAt(s, "Move[", 0);
    FindSubIs(s, "Move[", 0, 0);
    assert forall i :: 5 <= i < 5 + |id| ==> s[i] == id[i - 5];
    FindFromIs(s, ']', 5, 5 + |id|);
    assert s[5..5 + |id|] == id;
  }

  /** `next((n for n in adjacent if n.id == id), None)`. */
  function Lookup(adjacent: seq<Standpoint>, id: string): (r: Option<Standpoint>)
    ensures r.Some? ==> r.value in adjacent && r.value.id == id
    ensures r.None? <==> id !in Ids(adjacent)
  {
    if adjacent == [] then None
    else if adjacent[0].id == id then Some(adjacent[0])
    else
      var r := Lookup(adjacent[1..], id);
      assert Ids(adjacent) == [adjacent[0].id] + Ids(adjacent[1..]);
      r
  }

  /** The answer counts when it is one of the valid actions. */
  predicate Chosen(a: Option<string>, valid: seq<string>) {
    a.Some? && a.value in valid
  }

  /** The parsed answers to the action request and its three retries. */
  function Answers(agent: Agent, valid: seq<string>, initialId: string, currentId: string, o: Oracles): (r: seq<Result<Option<string>>>)
    ensures |r| == 4
  {
    [GenerateActionFor(agent, valid, initialId, currentId, 0, o),
     GenerateActionFor(agent, valid, initialId, currentId, 1, o),
     GenerateActionFor(agent, valid, initialId, currentId, 2, o),
     GenerateActionFor(agent, valid, initialId, currentId, 3, o)]
  }

  /** Going through the answers from the `k`-th on: the first valid one,
      or `None` when the last answer is invalid too; an error ends the
      search. */
  function Choose(answers: seq<Result<Option<string>>>, valid: seq<string>, k: nat): (r: Result<Option<string>>)
    requires k < |answers|
    ensures r.Ok? && r.value.Some? ==> r.value.value in valid
    decreases |answers| - k
  {
    match answers[k]
    case Err(e) => Err(e)
    case Ok(a) =>
      if Chosen(a, valid) then Ok(a)
      else if k == |answers| - 1 then Ok(None)
      else Choose(answers, valid, k + 1)
  }

  /** The answer came back and was not a valid action. */
  predicate Refused(answer: Result<Option<string>>, valid: seq<string>) {
    answer.Ok? && !Chosen(answer.value, valid)
  }

  /** No action is chosen iff every answer from the `k`-th on came back
      and none was valid. */
  lemma {:induction false} ChooseNone(answers: seq<Result<Option<string>>>, valid: seq<string>, k: nat)
    requires k < |answers|
    ensures Choose(answers, valid, k) == Ok(None) <==>
      forall j :: k <= j < |answers| ==> Refused(answers[j], valid)
    decreases |answers| - k
  {
    if k < |answers| - 1 {
      ChooseNone(answers, valid, k + 1);
    }
  }

  /** `generate_action` and its up to three retries: the first answer
      that is a valid action, or `None` when all four are not. */
  method ChooseAction(agent: Agent, valid: seq<string>, initialId: string, currentId: string, o: Oracles)
    returns (r: Result<Option<string>>)
    ensures r == Choose(Answers(agent, valid, initialId, currentId, o), valid, 0)
  {
    ghost var answers := Answers(agent, valid, initialId, currentId, o);
    var attempt := 0;
    while true
      invariant attempt <= 3
      invariant Choose(answers, valid, 0) == Choose(answers, valid, attempt)
      decreases 3 - attempt
    {
      var a := GenerateActionFor(agent, valid, initialId, currentId, attempt, o);
      assert a == answers[attempt];
      if a.Err? {
        return Err(a.error);
      }
      if Chosen(a.value, valid) {
        return Ok(a.value);
      }
      if attempt == 3 {
        return Ok(None);
      }
      attempt := attempt + 1;
    }
  }

  /** No two visits to the same standpoint. */
  predicate NoDup(s: seq<string>) {
    forall i, j :: 0 <= i < j < |s| ==> s[i] != s[j]
  }

  /** Every adjacent standpoint has a well-formed id. */
  predicate WellFormedIds(init: Standpoint) {
    forall i :: 0 <= i < |init.adjacent| ==> WellFormed(init.adjacent[i].id)
  }

  /** With well-formed ids every valid action leads to an adjacent
      standpoint not yet visited. */
  lemma MoveIsFresh(init: Standpoint, visited: seq<string>, move: string)
    requires WellFormedIds(init) && move in ValidActions(Ids(init.adjacent), visited)
    ensures MoveTarget(move).Ok? && MoveTarget(move).value in Ids(init.adjacent)
    ensures MoveTarget(move).value !in visited
  {
    var ids := Ids(init.adjacent);
    ValidActionsMembers(ids, visited, move);
    var i :| 0 <= i < |ids| && ids[i] !in visited && move == MoveAction(ids[i]);
    assert WellFormed(init.adjacent[i].id);
    MoveTargetOf(ids[i]);
  }

  /** Every valid action is a move, so the source's `startswith("Move")`
      test always passes. */
  lemma ValidActionsAreMoves(ids: seq<string>, visited: seq<string>, a: string)
    requires a in ValidActions(ids, visited)
    ensures IsPrefix("Move", a)
  {
    ValidActionsMembers(ids, visited, a);
    var i :| 0 <= i < |ids| && ids[i] !in visited && a == MoveAction(ids[i]);
    assert a[..4] == "Move";
  }

  /** After a move: the standpoint is looked up among the initial
      standpoint's neighbours, its views are added, and the confidence is
      asked for around a web query; `Ok(true)` means the agent is
      confident. */
  method Look(agent: Agent, init: Standpoint, target: string, o: Oracles, t: Transcript) returns (r: Result<bool>)
    modifies t
    ensures r.Ok? ==> target in Ids(init.adjacent)
    ensures r == Ok(true) ==> t.moveHistory != [] && t.moveHistory[|t.moveHistory| - 1] == ConfidenceEntry(Some(High))
    ensures |t.webContext| >= |old(t.webContext)|
  {
    var next := Lookup(init.adjacent, target);
    if next.None? {
      return Err(AttributeError);
    }
    t.images := t.images + [FormatText("This is a standpoint adjacent the initial. ID: " + target, agent.family)];
    var shown := AddImages(t, Coords(next.value), agent.family);
    if shown.Err? {
      return Err(shown.error);
    }
    // The views were added, so the family has an API style and the
    // confidence request cannot fail.
    var confident := t.IsConfident(agent, o);
    assert confident.Ok?;
    if confident.value {
      return Ok(true);
    }
    var queried := t.DoWebQuery(agent, o, 2, 2);
    if queried.Err? {
      return Err(queried.error);
    }
    r := t.IsConfident(agent, o);
  }

  /** The run's move loop, shared by both runners: each round offers the
      unvisited neighbours of the initial standpoint, asks for a move (with
      retries), moves, looks around, and checks confidence around a web
      query. */
  method Explore(agent: Agent, init: Standpoint, o: Oracles, iterNum: nat, t: Transcript)
    returns (visited: seq<string>, r: Result<bool>)
    modifies t
    ensures |visited| <= iterNum
    ensures r.Ok? ==> forall v :: v in visited ==> v in Ids(init.adjacent)
    ensures WellFormedIds(init) ==> NoDup(visited)
    ensures r == Ok(false) ==> exists valid, currentId ::
      valid != [] && Choose(Answers(agent, valid, init.id, currentId, o), valid, 0) == Ok(None)
    ensures r == Ok(true) && |visited| < iterNum ==>
      ValidActions(Ids(init.adjacent), visited) == [] ||
      (t.moveHistory != [] && t.moveHistory[|t.moveHistory| - 1] == ConfidenceEntry(Some(High)))
    ensures |t.webContext| >= |old(t.webContext)|
  {
    var ids := Ids(init.adjacent);
    var currentId := init.id;
    visited := [];
    for round := 0 to iterNum
      invariant |visited| == round && forall v :: v in visited ==> v in ids
      invariant WellFormedIds(init) ==> NoDup(visited)
      invariant |t.webContext| >= |old(t.webContext)|
    {
      var valid := CollectValidActions(ids, visited);
      if valid == [] {
        return visited, Ok(true);
      }
      var action := ChooseAction(agent, valid, init.id, currentId, o);
      if action.Err? {
        return visited, Err(action.error);
      }
      if action.value.None? {
        return visited, Ok(false);
      }
      var move := action.value.value;
      t.moveHistory := t.moveHistory + [move];
      var target := MoveTarget(move);
      if target.Err? {
        return visited, Err(target.error);
      }
      if WellFormedIds(init) {
        MoveIsFresh(init, visited, move);
      }
      visited := visited + [target.value];
      currentId := target.value;
      var seen := Look(agent, init, target.value, o, t);
      if seen.Err? || seen.value {
        return visited, seen;
      }
    }
    r := Ok(true);
  }

  /** What a run returns besides its transcript. */
  datatype Run = Run(visited: seq<string>, success: Result<bool>)

  /** `run_optional`: the agent may answer at once, or after the first web
      query, before it starts moving; it is unsuccessful only when a
      request for a move and its three retries all fail. */
  method RunOptional(agent: Agent, init: Standpoint, o: Oracles, iterNum: nat) returns (t: Transcript, run: Run)
    ensures |run.visited| <= iterNum
    ensures run.success.Ok? ==> forall v :: v in run.visited ==> v in Ids(init.adjacent)
    ensures WellFormedIds(init) ==> NoDup(run.visited)
    ensures run.success == Ok(false) ==> exists valid, currentId ::
      valid != [] && Choose(Answers(agent, valid, init.id, currentId, o), valid, 0) == Ok(None)
    ensures run.visited != [] ==> |t.webContext| >= 1
  {
    t := new Transcript();
    t.images := t.images + [FormatText("This is the initial standpoint.", agent.family)];
    var shown := AddImages(t, Coords(init), agent.family);
    if shown.Err? {
      return t, Run([], Err(shown.error));
    }
    var confident := t.IsConfident(agent, o);
    assert confident.Ok?;
    if confident.value {
      return t, Run([], Ok(true));
    }
    var queried := t.DoWebQuery(agent, o, 2, 2);
    if queried.Err? {
      return t, Run([], Err(queried.error));
    }
    confident := t.IsConfident(agent, o);
    if confident.Err? || confident.value {
      return t, Run([], confident);
    }
    var visited, success := Explore(agent, init, o, iterNum, t);
    run := Run(visited, success);
  }

  /** `run_forced`: the first confidence estimate is asked for but not
      acted on, so every successful run has made a web query. */
  method RunForced(agent: Agent, init: Standpoint, o: Oracles, iterNum: nat) returns (t: Transcript, run: Run)
    ensures |run.visited| <= iterNum
    ensures run.success.Ok? ==> forall v :: v in run.visited ==> v in Ids(init.adjacent)
    ensures WellFormedIds(init) ==> NoDup(run.visited)
    ensures run.success == Ok(false) ==> exists valid, currentId ::
      valid != [] && Choose(Answers(agent, valid, init.id, currentId, o), valid, 0) == Ok(None)
    ensures run.success.Ok? ==> |t.webContext| >= 1
  {
    t := new Transcript();
    t.images := t.images + [FormatText("This is the initial standpoint.", agent.family)];
    var shown := AddImages(t, Coords(init), agent.family);
    if shown.Err? {
      return t, Run([], Err(shown.error));
    }
    // Asked for, and its answer not acted on.
    var confident := t.IsConfident(agent, o);
    assert confident.Ok?;
    var queried := t.DoWebQuery(agent, o, 2, 2);
    if queried.Err? {
      return t, Run([], Err(queried.error));
    }
    confident := t.IsConfident(agent, o);
    if confident.Err? || confident.value {
      return t, Run([], confident);
    }
    var visited, success := Explore(agent, init, o, iterNum, t);
    run := Run(visited, success);
  }
}
