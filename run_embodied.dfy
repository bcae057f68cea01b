/** The episode driver of the text-based embodied web agent
    (models/indoor/text-based/run_embodied.py): the early-stop rules over
    the trajectory, the environment-switching rules the main loop applies
    to the agent's actions, and the choice of the configurations left to
    run. The trajectory alternates states and actions, all kept as JSON
    values; the agent, the browser and the simulator are outside the
    model. */
module RunEmbodied {
  import opened Wrappers
  import opened Text
  import opened Json

  /** `trajectory[1::2]`: the actions between the states. */
  function Actions(trajectory: seq<Json>): (acts: seq<Json>)
    ensures |acts| == |trajectory| / 2
    ensures forall i :: 0 <= i < |acts| ==> acts[i] == trajectory[2 * i + 1]
  {
    seq(|trajectory| / 2, i requires 0 <= i < |trajectory| / 2 => trajectory[2 * i + 1])
  }

  /** `xs[-k:]`: the last `k` items for a positive `k`; for `k <= 0` the
      slice starts at index `-k`, so `xs[-0:]` is the whole list. */
  function LastK(xs: seq<Json>, k: int): (r: seq<Json>)
    ensures |r| <= |xs| && r == xs[|xs| - |r|..]
    ensures k > 0 ==> |r| == if k < |xs| then k else |xs|
    ensures k == 0 ==> r == xs
  {
    if k > 0 then xs[(if k < |xs| then |xs| - k else 0)..]
    else xs[(if -k < |xs| then -k else |xs|)..]
  }

  /** `str(i)` for an integer. */
  function IntText(i: int): string {
    if i < 0 then "-" + NatDigits(-i) else NatDigits(i)
  }

  /** `all(["witch" in a for a in xs])`: the list is built in full first,
      so an item that is no container raises even after a false one. */
  function AllContain(sub: string, xs: seq<Json>): (r: Result<bool>)
    ensures r.Err? <==> exists i :: 0 <= i < |xs| && In(sub, xs[i]).Err?
    ensures r.Ok? ==> (r.value <==> forall i :: 0 <= i < |xs| ==> In(sub, xs[i]) == Ok(true))
  {
    if xs == [] then Ok(true)
    else
      match In(sub, xs[0])
      case Err(e) => Err(e)
      case Ok(b) =>
        match AllContain(sub, xs[1..])
        case Err(e) => Err(e)
        case Ok(rest) =>
          assert forall i :: 1 <= i < |xs| ==> xs[i] == xs[1..][i - 1];
          Ok(b && rest)
  }

  /** `(not isinstance(a, str)) and a["action_type"] == ActionTypes.NONE`,
      with the NONE action type as `none`. */
  function ParseFailed(a: Json, none: Json): (r: Result<bool>)
    ensures a.Str? ==> r == Ok(false)
    ensures a.Obj? && Get(a.fields, "action_type") == Some(none) ==> r == Ok(true)
  {
    if a.Str? then Ok(false)
    else
      match Key(a, "action_type")
      case Err(e) => Err(e)
      case Ok(t) => Ok(t == none)
  }

  /** `all([...])` of `ParseFailed` over a list built in full. */
  function AllParseFailed(xs: seq<Json>, none: Json): (r: Result<bool>)
    ensures r.Err? <==> exists i :: 0 <= i < |xs| && ParseFailed(xs[i], none).Err?
    ensures r.Ok? ==> (r.value <==> forall i :: 0 <= i < |xs| ==> ParseFailed(xs[i], none) == Ok(true))
  {
    if xs == [] then Ok(true)
    else
      match ParseFailed(xs[0], none)
      case Err(e) => Err(e)
      case Ok(b) =>
        match AllParseFailed(xs[1..], none)
        case Err(e) => Err(e)
        case Ok(rest) =>
          assert forall i :: 1 <= i < |xs| ==> xs[i] == xs[1..][i - 1];
          Ok(b && rest)
  }

  /** `sum([a == x for a in xs])`. */
  function Count(xs: seq<Json>, x: Json): (n: nat)
    ensures n <= |xs|
  {
    if xs == [] then 0 else Count(xs[..|xs| - 1], x) + (if xs[|xs| - 1] == x then 1 else 0)
  }

  /** `early_stop(trajectory, max_steps, environment, thresholds)`, with
      the NONE action type as `none`. Reaching the step budget is checked
      first; then five switches in a row; then, in the web environment
      after an action that is not a string, `parsing_failure` failed
      parses in a row; then, outside that case, ten actions anywhere equal
      to the last one. A missing threshold raises `KeyError`. */
  function EarlyStop(trajectory: seq<Json>, maxSteps: int, environment: string, thresholds: map<string, int>, none: Json):
    Result<(bool, string)>
  {
    if ((|trajectory| - 1) as real) / 2.0 >= maxSteps as real then Ok((true, "Reach max steps " + IntText(maxSteps)))
    else Switching(Actions(trajectory), environment, thresholds, none)
  }

  /** The rules after the budget: five switches in a row first. */
  function Switching(acts: seq<Json>, environment: string, thresholds: map<string, int>, none: Json): Result<(bool, string)> {
    match AllContain("witch", LastK(acts, 5))
    case Err(e) => Err(e)
    case Ok(stuck) =>
      if stuck && |LastK(acts, 5)| >= 5 then Ok((true, "Stuck in switch for 5 times"))
      else ParseFailures(acts, environment, thresholds, none)
  }

  /** Then the failed parses in the web environment. */
  function ParseFailures(acts: seq<Json>, environment: string, thresholds: map<string, int>, none: Json): Result<(bool, string)> {
    if "parsing_failure" !in thresholds then Err(KeyError)
    else
      var k := thresholds["parsing_failure"];
      var lastK := LastK(acts, k);
      if environment == "Web" && acts != [] && !acts[|acts| - 1].Str? && |lastK| >= k then
        match AllParseFailed(lastK, none)
        case Err(e) => Err(e)
        case Ok(failed) =>
          if failed then Ok((true, "Failed to parse web actions for " + IntText(k) + " times"))
          else Repeating(acts, environment, thresholds)
      else Repeating(acts, environment, thresholds)
  }

  /** The last rule of `early_stop`: no actions never stop; after a web
      action that is not a string its type is read and nothing stops;
      otherwise ten equal actions stop. */
  function Repeating(acts: seq<Json>, environment: string, thresholds: map<string, int>): Result<(bool, string)> {
    if "repeating_action" !in thresholds then Err(KeyError)
    else if acts == [] then Ok((false, ""))
    else
      var last := acts[|acts| - 1];
      if environment == "Web" && !last.Str? then
        match Key(last, "action_type")
        case Err(e) => Err(e)
        case Ok(_) => Ok((false, ""))
      else if Count(acts, last) >= 10 then Ok((true, "Same embodied action for 10 times"))
      else Ok((false, ""))
  }

  predicate HasThresholds(thresholds: map<string, int>) {
    "parsing_failure" in thresholds && "repeating_action" in thresholds
  }

  /** The step budget is checked first. */
  lemma EarlyStopMaxSteps(trajectory: seq<Json>, maxSteps: int, environment: string, thresholds: map<string, int>, none: Json)
    requires |trajectory| >= 2 * maxSteps + 1
    ensures EarlyStop(trajectory, maxSteps, environment, thresholds, none) == Ok((true, "Reach max steps " + IntText(maxSteps)))
  {
  }

  /** Without actions, and within the budget, there is no reason to stop. */
  lemma EarlyStopNoActions(trajectory: seq<Json>, maxSteps: int, environment: string, thresholds: map<string, int>, none: Json)
    requires |trajectory| <= 1 && maxSteps >= 1 && HasThresholds(thresholds)
    ensures EarlyStop(trajectory, maxSteps, environment, thresholds, none) == Ok((false, ""))
  {
    assert Actions(trajectory) == [];
  }

  /** The last five actions are strings that contain "witch". */
  predicate Stuck(acts: seq<Json>) {
    |acts| >= 5 && forall i :: |acts| - 5 <= i < |acts| ==> acts[i].Str? && Contains(acts[i].s, "witch")
  }

  /** Over string actions, the switch rule reads exactly `Stuck`. */
  lemma SwitchRule(acts: seq<Json>)
    requires forall i :: 0 <= i < |acts| && |acts| - 5 <= i ==> acts[i].Str?
    ensures var r := AllContain("witch", LastK(acts, 5));
      r.Ok? && (r.value && |LastK(acts, 5)| >= 5 <==> Stuck(acts))
  {
    var last5 := LastK(acts, 5);
    var r := AllContain("witch", last5);
    forall i | 0 <= i < |last5|
      ensures last5[i] == acts[|acts| - |last5| + i] && In("witch", last5[i]) == Ok(Contains(last5[i].s, "witch"))
    {
      assert last5[i] == acts[|acts| - |last5| + i];
    }
    if Stuck(acts) {
      assert |last5| == 5;
    }
    if r.value && |last5| >= 5 {
      forall i | |acts| - 5 <= i < |acts|
        ensures Contains(acts[i].s, "witch")
      {
        assert acts[i] == last5[i - (|acts| - 5)];
      }
    }
  }

  /** Five actions in a row that are switch strings stop the episode. */
  lemma EarlyStopStuck(trajectory: seq<Json>, maxSteps: int, environment: string, thresholds: map<string, int>, none: Json)
    requires |trajectory| < 2 * maxSteps + 1 && Stuck(Actions(trajectory))
    ensures EarlyStop(trajectory, maxSteps, environment, thresholds, none) == Ok((true, "Stuck in switch for 5 times"))
  {
    SwitchRule(Actions(trajectory));
  }

  /** Outside the web environment the last rule stops exactly on ten
      actions equal to the last one. */
  lemma RepeatingOffWeb(acts: seq<Json>, environment: string, thresholds: map<string, int>)
    requires environment != "Web" && "repeating_action" in thresholds
    ensures var r := Repeating(acts, environment, thresholds);
      r.Ok? && (r.value.0 <==> acts != [] && Count(acts, acts[|acts| - 1]) >= 10)
  {
  }

  /** Over string actions outside the web environment, the rules after the
      budget stop exactly on five switches in a row or on ten actions
      equal to the last one. */
  lemma SwitchingText(acts: seq<Json>, environment: string, thresholds: map<string, int>, none: Json)
    requires environment != "Web" && HasThresholds(thresholds)
    requires forall i :: 0 <= i < |acts| ==> acts[i].Str?
    ensures var r := Switching(acts, environment, thresholds, none);
      r.Ok? && (r.value.0 <==> Stuck(acts) || (acts != [] && Count(acts, acts[|acts| - 1]) >= 10))
  {
    SwitchRule(acts);
    RepeatingOffWeb(acts, environment, thresholds);
    assert ParseFailures(acts, environment, thresholds, none) == Repeating(acts, environment, thresholds);
  }

  /** Where every action is a string and the agent is not in the web
      environment, the episode stops exactly on the budget, on five
      switches in a row, or on ten actions equal to the last one. */
  lemma EarlyStopTextActions(trajectory: seq<Json>, maxSteps: int, environment: string, thresholds: map<string, int>, none: Json)
    requires environment != "Web" && HasThresholds(thresholds)
    requires var acts := Actions(trajectory); forall i :: 0 <= i < |acts| ==> acts[i].Str?
    ensures var acts := Actions(trajectory);
      var r := EarlyStop(trajectory, maxSteps, environment, thresholds, none);
      r.Ok? &&
      (r.value.0 <==> (|trajectory| >= 2 * maxSteps + 1 || Stuck(acts) ||
        (acts != [] && Count(acts, acts[|acts| - 1]) >= 10)))
  {
    if |trajectory| < 2 * maxSteps + 1 {
      SwitchingText(Actions(trajectory), environment, thresholds, none);
    }
  }

  /** No action carrying no "witch" key is a switch. */
  lemma NotSwitching(acts: seq<Json>)
    requires acts != [] && forall i :: 0 <= i < |acts| ==> acts[i].Obj? && !HasKey(acts[i].fields, "witch")
    ensures AllContain("witch", LastK(acts, 5)) == Ok(false)
  {
    var last5 := LastK(acts, 5);
    assert last5[0] == acts[|acts| - |last5|];
    assert In("witch", last5[0]) == Ok(false);
  }

  /** The last `k` actions all failed to parse. */
  lemma LastFailed(acts: seq<Json>, k: int, none: Json)
    requires 0 < k <= |acts|
    requires forall i :: |acts| - k <= i < |acts| ==> acts[i].Obj? && Get(acts[i].fields, "action_type") == Some(none)
    ensures AllParseFailed(LastK(acts, k), none) == Ok(true) && |LastK(acts, k)| == k
  {
    var lastK := LastK(acts, k);
    forall i | 0 <= i < |lastK|
      ensures ParseFailed(lastK[i], none) == Ok(true)
    {
      assert lastK[i] == acts[|acts| - k + i];
    }
  }

  /** In the web environment, `parsing_failure` (k > 0) actions in a row
      that failed to parse stop the episode, provided it is within the
      budget and no action carries a "witch" key. */
  lemma EarlyStopParseFailures(trajectory: seq<Json>, maxSteps: int, thresholds: map<string, int>, none: Json)
    requires |trajectory| < 2 * maxSteps + 1 && HasThresholds(thresholds)
    requires var acts := Actions(trajectory); var k := thresholds["parsing_failure"];
      0 < k <= |acts| &&
      (forall i :: 0 <= i < |acts| ==> acts[i].Obj? && !HasKey(acts[i].fields, "witch")) &&
      (forall i :: |acts| - k <= i < |acts| ==> Get(acts[i].fields, "action_type") == Some(none))
    ensures EarlyStop(trajectory, maxSteps, "Web", thresholds, none) ==
      Ok((true, "Failed to parse web actions for " + IntText(thresholds["parsing_failure"]) + " times"))
  {
    var acts := Actions(trajectory);
    NotSwitching(acts);
    LastFailed(acts, thresholds["parsing_failure"], none);
  }

  /** `get_unfinished`'s reading of a rendered result file
      `.../render_<id>.html`: the second `_`-separated piece of the name
      before its first dot; a name without `_` raises `IndexError`. */
  function ResultId(path: string): (r: Result<string>)
    ensures r.Err? ==> r.error == IndexError
  {
    var pieces := Split(Split(Basename(path), '.')[0], '_');
    if |pieces| < 2 then Err(IndexError) else Ok(pieces[1])
  }

  /** `os.path.basename`: the text after the last '/'. */
  function Basename(path: string): (r: string)
    ensures '/' !in r && IsSuffix(r, path)
  {
    var parts := Split(path, '/');
    JoinSplit(path, '/');
    JoinLastPiece(parts, '/');
    parts[|parts| - 1]
  }

  /** The last piece of a join ends it. */
  lemma {:induction false} JoinLastPiece(parts: seq<string>, sep: char)
    requires parts != []
    ensures IsSuffix(parts[|parts| - 1], Join(parts, sep))
    decreases |parts|
  {
    if |parts| > 1 {
      JoinLastPiece(parts[1..], sep);
      assert parts[1..][|parts[1..]| - 1] == parts[|parts| - 1];
      var tail := Join(parts[1..], sep);
      var whole := parts[0] + [sep] + tail;
      assert whole[|whole| - |tail|..] == tail;
    }
  }

  /** The id of a configuration file `.../<id>.json`. */
  function ConfigId(path: string): string {
    Split(Basename(path), '.')[0]
  }

  /** The ids of all rendered results, or the error the first unreadable
      name raises. */
  function ResultIds(paths: seq<string>): (r: Result<seq<string>>)
    ensures r.Ok? <==> forall i :: 0 <= i < |paths| ==> ResultId(paths[i]).Ok?
    ensures r.Ok? ==> |r.value| == |paths| && forall i :: 0 <= i < |paths| ==> r.value[i] == ResultId(paths[i]).value
    ensures r.Err? ==> r.error == IndexError
  {
    if paths == [] then Ok([])
    else
      var init := paths[..|paths| - 1];
      var rest := ResultIds(init);
      var last := ResultId(paths[|paths| - 1]);
      assert forall i :: 0 <= i < |init| ==> init[i] == paths[i];
      if rest.Err? then Err(rest.error)
      else if last.Err? then Err(last.error)
      else Ok(rest.value + [last.value])
  }

  /** The configuration's id is among those with a result. */
  predicate Done(config: string, ids: seq<string>) {
    ConfigId(config) in ids
  }

  /** The configurations, in order, whose id is not among `ids`. */
  function Unfinished(configs: seq<string>, ids: seq<string>): seq<string> {
    if configs == [] then []
    else
      var last := configs[|configs| - 1];
      Unfinished(configs[..|configs| - 1], ids) + (if Done(last, ids) then [] else [last])
  }

  /** A configuration is kept exactly when it is one of the given ones and
      its id has no result. */
  lemma {:induction false} UnfinishedMembers(configs: seq<string>, ids: seq<string>, c: string)
    ensures c in Unfinished(configs, ids) <==> c in configs && !Done(c, ids)
  {
    if configs != [] {
      var init := configs[..|configs| - 1];
      UnfinishedMembers(init, ids, c);
      assert configs == init + [configs[|configs| - 1]];
    }
  }

  /** Filtering keeps the order: the unfinished configurations of two
      lists one after the other are those of each list, in turn. */
  lemma {:induction false} UnfinishedAppend(a: seq<string>, b: seq<string>, ids: seq<string>)
    ensures Unfinished(a + b, ids) == Unfinished(a, ids) + Unfinished(b, ids)
    decreases |b|
  {
    if b == [] {
      assert a + b == a;
    } else {
      var init := b[..|b| - 1];
      var last := b[|b| - 1];
      UnfinishedAppend(a, init, ids);
      SplitLast(a, b);
      UnfinishedSnoc(a + init, last, ids);
      UnfinishedSnoc(init, last, ids);
    }
  }

  lemma SplitLast(a: seq<string>, b: seq<string>)
    requires b != []
    ensures a + b == (a + b[..|b| - 1]) + [b[|b| - 1]] && b == b[..|b| - 1] + [b[|b| - 1]]
  {
  }

  /** One more configuration is kept at the end, or dropped. */
  lemma UnfinishedSnoc(configs: seq<string>, c: string, ids: seq<string>)
    ensures Unfinished(configs + [c], ids) == Unfinished(configs, ids) + (if Done(c, ids) then [] else [c])
  {
    var xs := configs + [c];
    assert xs[..|xs| - 1] == configs;
  }

  /** `get_unfinished(config_files, result_dir)`, the `*.html` files of
      the result directory given as `resultFiles`. */
  method GetUnfinished(configFiles: seq<string>, resultFiles: seq<string>) returns (r: Result<seq<string>>)
    ensures r.Ok? <==> ResultIds(resultFiles).Ok?
    ensures r.Ok? ==> r.value == Unfinished(configFiles, ResultIds(resultFiles).value)
    ensures r.Err? ==> r.error == IndexError
  {
    var taskIds := ResultIds(resultFiles);
    if taskIds.Err? {
      return Err(taskIds.error);
    }
    var ids := taskIds.value;
    var unfinished: seq<string> := [];
    var i := 0;
    while i < |configFiles|
      invariant 0 <= i <= |configFiles| && unfinished == Unfinished(configFiles[..i], ids)
    {
      assert configFiles[..i + 1][..i] == configFiles[..i];
      if !Done(configFiles[i], ids) {
        unfinished := unfinished + [configFiles[i]];
      }
      i := i + 1;
    }
    assert configFiles[..i] == configFiles;
    return Ok(unfinished);
  }

  /** The bookkeeping of one episode of `test` that the control actions
      change: the active environment, whether a purchase is under way,
      the `meta_data` histories and the trajectory. */
  class Episode {
    var environment: string
    var buyingStatus: bool
    var actionHistory: seq<Json>
    var embodiedHistory: seq<Json>
    var shopping: Option<Json>
    var shoppingActions: Option<seq<Json>>
    var trajectory: seq<Json>

    /** An episode starts in the web environment with the first state, the
        action history `["None"]` and nothing bought. */
    constructor(initial: Json)
      ensures environment == "Web" && !buyingStatus && trajectory == [initial]
      ensures actionHistory == [Str("None")] && embodiedHistory == [] && shopping.None? && shoppingActions.None?
    {
      environment := "Web";
      buyingStatus := false;
      actionHistory := [Str("None")];
      embodiedHistory := [];
      shopping := None;
      shoppingActions := None;
      trajectory := [initial];
    }

    /** The control actions of the main loop, once `action` has been
        appended to the trajectory. "Buy ..." and "Bought ..." go back to
        the web environment and start or end the purchase;
        "switch_environment ..." toggles between the environments, leaving
        the embodied environment clearing its round history. Each repeats
        the last state and reports that the loop continues; any other
        action changes nothing here. A blank string action raises
        `IndexError`. */
    method Control(action: Json) returns (r: Result<bool>)
      requires |trajectory| >= 2
      modifies this
      ensures var word := if action.Str? then FirstWord(action.s) else None;
        var handled := word.Some? && word.value in {"Buy", "Bought", "switch_environment"};
        (r.Err? <==> action.Str? && word.None?) && (r.Err? ==> r.error == IndexError) &&
        (r.Ok? ==> r.value == handled) &&
        (handled ==> trajectory == old(trajectory) + [old(trajectory)[|old(trajectory)| - 2]]) &&
        (!handled ==> (trajectory == old(trajectory) && environment == old(environment) &&
          buyingStatus == old(buyingStatus) && actionHistory == old(actionHistory) &&
          embodiedHistory == old(embodiedHistory) && shopping == old(shopping) &&
          shoppingActions == old(shoppingActions))) &&
        (word == Some("Buy") ==> (environment == "Web" && buyingStatus && shopping == Some(action) &&
          shoppingActions == Some([]) && actionHistory == old(actionHistory) && embodiedHistory == old(embodiedHistory))) &&
        (word == Some("Bought") ==> (environment == "Web" && !buyingStatus && shopping.None? &&
          shoppingActions.None? && actionHistory == old(actionHistory) && embodiedHistory == old(embodiedHistory))) &&
        (word == Some("switch_environment") ==> (
          buyingStatus == old(buyingStatus) && shopping == old(shopping) && shoppingActions == old(shoppingActions) &&
          (old(environment) == "Web" ==> (environment == "Embodied" &&
            embodiedHistory == old(embodiedHistory) + [action] && actionHistory == old(actionHistory))) &&
          (old(environment) != "Web" ==> (environment == "Web" &&
            embodiedHistory == [] && actionHistory == old(actionHistory) + [action]))))
    {
      if !action.Str? {
        return Ok(false);
      }
      var word := FirstWord(action.s);
      if word.None? {
        return Err(IndexError);
      }
      var previous := trajectory[|trajectory| - 2];
      if word.value == "Buy" {
        environment := "Web";
        shopping := Some(action);
        shoppingActions := Some([]);
        trajectory := trajectory + [previous];
        buyingStatus := true;
        return Ok(true);
      }
      if word.value == "Bought" {
        environment := "Web";
        shopping := None;
        shoppingActions := None;
        trajectory := trajectory + [previous];
        buyingStatus := false;
        return Ok(true);
      }
      if word.value == "switch_environment" {
        trajectory := trajectory + [previous];
        if environment == "Web" {
          environment := "Embodied";
          embodiedHistory := embodiedHistory + [action];
        } else {
          environment := "Web";
          embodiedHistory := [];
          actionHistory := actionHistory + [action];
        }
        return Ok(true);
      }
      return Ok(false);
    }
  }
}
