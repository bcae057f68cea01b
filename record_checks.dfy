/** The checks run over saved episode records of the text-based indoor
    agent: whether a record counts as finished
    (models/indoor/text-based/check_finished.py) and whether a shopping
    record counts as a web success (models/indoor/text-based/cal_web_acc.py).
    A record is the dictionary the episode runner saves. Reading the
    record and its task configuration is outside the model: the final step
    of the configuration is given as `finalStep` (None when the file, the
    recipe or its step is missing), and `difflib`'s similarity ratio being
    at least 0.95 is the function parameter `similar`. */
module RecordChecks {
  import opened Wrappers
  import opened Text
  import opened Json

  const SwitchMarker := "switch_environment"
  const NextDisabled := "button 'Next' disabled: True"
  const SameActionStop := "Early stop: Same embodied action for 10 times"
  const AddToCart := "Add to Cart"

  /** `extract_environment_from_action`, the same in both scripts: for a
      string naming `switch_environment`, the text between its first '['
      and its first ']' (empty when that ']' does not come after the
      '['); None for any other action or when a bracket is missing. */
  function ExtractEnvironment(action: Json): (r: Option<string>)
    ensures r.Some? <==> action.Str? && Contains(action.s, SwitchMarker) && '[' in action.s && ']' in action.s
    ensures r.Some? ==> ']' !in r.value && |r.value| < |action.s|
  {
    if action.Str? && Contains(action.s, SwitchMarker) then
      var start := FindFrom(action.s, '[', 0);
      var end := FindFrom(action.s, ']', 0);
      if start != -1 && end != -1 then
        Some(if start + 1 <= end then action.s[start + 1..end] else [])
      else None
    else None
  }

  /** The name enclosed by the first pair of brackets is what is
      extracted, whatever follows it. */
  lemma ExtractEnclosed(pre: string, env: string, post: string)
    requires '[' !in pre && ']' !in pre && ']' !in env
    requires Contains(pre + "[" + env + "]" + post, SwitchMarker)
    ensures ExtractEnvironment(Str(pre + "[" + env + "]" + post)) == Some(env)
  {
    var s := pre + "[" + env + "]" + post;
    var start := |pre|;
    var end := |pre| + 1 + |env|;
    assert s[start] == '[' && forall i :: 0 <= i < start ==> s[i] == pre[i];
    assert s[end] == ']' && forall i :: 0 <= i < end ==> s[i] == (pre + "[" + env)[i];
    assert FindFrom(s, '[', 0) == start;
    assert FindFrom(s, ']', 0) == end;
    assert s[start + 1..end] == env;
  }

  /** The action the agent writes to switch environments gives back the
      environment it names. */
  lemma SwitchCommandRoundTrip(env: string)
    requires ']' !in env
    ensures ExtractEnvironment(Str(SwitchMarker + " [" + env + "]")) == Some(env)
  {
    var pre := SwitchMarker + " ";
    assert SwitchMarker + " [" + env + "]" == pre + "[" + env + "]" + "";
    assert OccursAt(pre + "[" + env + "]" + "", SwitchMarker, 0);
    ExtractEnclosed(pre, env, "");
  }

  /** Conversely, a non-empty extracted name sits right after a '[' that
      no bracket precedes and right before a ']'. */
  lemma ExtractShape(action: Json)
    requires ExtractEnvironment(action).Some? && ExtractEnvironment(action).value != []
    ensures var s, env := action.s, ExtractEnvironment(action).value;
      exists k :: 0 <= k && k + |env| + 2 <= |s| && s[k] == '[' && '[' !in s[..k] && ']' !in s[..k] &&
        s[k + 1..k + 1 + |env|] == env && s[k + 1 + |env|] == ']'
  {
    var s := action.s;
    var k := FindFrom(s, '[', 0);
    var end := FindFrom(s, ']', 0);
    assert k + 1 < end;
    assert s[k] == '[' && '[' !in s[..k] && ']' !in s[..k];
  }

  /** `is_text_95_percent_similar`: both texts non-empty and similar. */
  predicate Similar95(text1: string, text2: string, similar: (string, string) -> bool) {
    text1 != [] && text2 != [] && similar(text1, text2)
  }

  predicate IsSwitch(action: Json) {
    action.Str? && Contains(action.s, SwitchMarker)
  }

  /** A dictionary action holding the runner's answer for an agent that
      repeated the same embodied action ten times. */
  predicate IsSameActionStop(action: Json) {
    action.Obj? && Get(action.fields, "answer") == Some(Str(SameActionStop))
  }

  /** The five actions from index `i` on all switch environments. */
  predicate FiveFrom(actions: seq<Json>, i: int) {
    0 <= i && i + 5 <= |actions| && forall k | i <= k < i + 5 :: IsSwitch(actions[k])
  }

  predicate SwitchedFiveTimes(actions: seq<Json>) {
    exists i | 0 <= i <= |actions| - 5 :: FiveFrom(actions, i)
  }

  predicate StoppedEarly(actions: seq<Json>) {
    exists i :: 0 <= i < |actions| && IsSameActionStop(actions[i])
  }

  predicate NextDisabledSeen(observations: seq<Json>) {
    exists i :: 0 <= i < |observations| && observations[i].Str? && Contains(observations[i].s, NextDisabled)
  }

  /** The action switches to an environment whose name is similar to the
      final step of the configured episode. */
  predicate MatchesFinalStep(action: Json, finalStep: Option<string>, similar: (string, string) -> bool) {
    var env := ExtractEnvironment(action);
    env.Some? && env.value != [] && finalStep.Some? && Similar95(env.value, finalStep.value, similar)
  }

  predicate AnyMatchesFinalStep(actions: seq<Json>, finalStep: Option<string>, similar: (string, string) -> bool) {
    exists i :: 0 <= i < |actions| && MatchesFinalStep(actions[i], finalStep, similar)
  }

  /** The first loop of check_finished.py's `check_json_file`: a counter
      of consecutive switch actions, reset by any other action, that
      stops the scan at five, and a dictionary action with the
      same-action answer that stops it too. */
  method ScanActions(actions: seq<Json>) returns (found: bool)
    ensures found <==> SwitchedFiveTimes(actions) || StoppedEarly(actions)
  {
    var consecutive := 0;
    var i := 0;
    while i < |actions|
      invariant 0 <= i <= |actions|
      invariant 0 <= consecutive <= i && consecutive < 5
      invariant forall k :: i - consecutive <= k < i ==> IsSwitch(actions[k])
      invariant consecutive < i ==> !IsSwitch(actions[i - 1 - consecutive])
      invariant forall j :: 0 <= j && j + 5 <= i ==> !FiveFrom(actions, j)
      invariant forall k :: 0 <= k < i ==> !IsSameActionStop(actions[k])
    {
      var action := actions[i];
      if action.Str? {
        if Contains(action.s, SwitchMarker) {
          consecutive := consecutive + 1;
          if consecutive >= 5 {
            assert FiveFrom(actions, i - 4);
            return true;
          }
        } else {
          consecutive := 0;
        }
      } else if action.Obj? {
        if Get(action.fields, "answer") == Some(Str(SameActionStop)) {
          return true;
        }
        consecutive := 0;
      } else {
        consecutive := 0;
      }
      i := i + 1;
    }
    return false;
  }

  /** The scan for an observation showing the 'Next' button disabled. */
  method ScanObservations(observations: seq<Json>) returns (found: bool)
    ensures found <==> NextDisabledSeen(observations)
  {
    for i := 0 to |observations|
      invariant forall k :: 0 <= k < i ==> !(observations[k].Str? && Contains(observations[k].s, NextDisabled))
    {
      var observation := observations[i];
      if observation.Str? && Contains(observation.s, NextDisabled) {
        return true;
      }
    }
    return false;
  }

  /** The scan for a switch action, any one and not only the last, whose
      environment is similar to the final step. */
  method ScanSwitches(actions: seq<Json>, finalStep: Option<string>, similar: (string, string) -> bool)
    returns (found: bool)
    ensures found <==> AnyMatchesFinalStep(actions, finalStep, similar)
  {
    for i := 0 to |actions|
      invariant forall k :: 0 <= k < i ==> !MatchesFinalStep(actions[k], finalStep, similar)
    {
      var environment := ExtractEnvironment(actions[i]);
      if environment.Some? && environment.value != [] {
        if finalStep.Some? && Similar95(environment.value, finalStep.value, similar) {
          return true;
        }
      }
    }
    return false;
  }

  function Actions(record: Fields): Json {
    GetOrNull(record, "actions")
  }

  function Observations(record: Fields): Json {
    GetOrNull(record, "observations")
  }

  predicate HasTrajectory(record: Fields) {
    HasKey(record, "actions") && HasKey(record, "observations")
  }

  /** check_finished.py's `check_json_file`. A record without actions or
      observations is unfinished; one with at least 99 actions is
      finished; otherwise it is finished when five switch actions come in
      a row, an action is the same-action early stop, an observation shows
      'Next' disabled, or a switch action names the final step. `len` of
      the actions and iterating the observations raise TypeError on
      values that have no length. */
  method CheckFinished(record: Fields, finalStep: Option<string>, similar: (string, string) -> bool)
    returns (r: Result<bool>)
    ensures !HasTrajectory(record) ==> r == Ok(false)
    ensures HasTrajectory(record) ==> (r.Err? <==>
      (Len(Actions(record)).Err? ||
       (Len(Actions(record)).value < 99 &&
        !SwitchedFiveTimes(Iterated(Actions(record)).value) && !StoppedEarly(Iterated(Actions(record)).value) &&
        Iterated(Observations(record)).None?)))
    ensures r.Err? ==> r.error == TypeError
    ensures r == Ok(true) <==> (HasTrajectory(record) && Len(Actions(record)).Ok? &&
      (var actions := Iterated(Actions(record)).value;
       Len(Actions(record)).value >= 99 || SwitchedFiveTimes(actions) || StoppedEarly(actions) ||
       (Iterated(Observations(record)).Some? &&
        (NextDisabledSeen(Iterated(Observations(record)).value) || AnyMatchesFinalStep(actions, finalStep, similar)))))
  {
    if !HasTrajectory(record) {
      return Ok(false);
    }
    var n := Len(Actions(record));
    if n.Err? {
      return Err(n.error);
    }
    if n.value >= 99 {
      return Ok(true);
    }
    var actions := Iterated(Actions(record)).value;
    var found := ScanActions(actions);
    if found {
      return Ok(true);
    }
    var observations := Iterated(Observations(record));
    if observations.None? {
      return Err(TypeError);
    }
    found := ScanObservations(observations.value);
    if found {
      return Ok(true);
    }
    found := ScanSwitches(actions, finalStep, similar);
    return Ok(found);
  }

  /** Some shopping-history entry is a string mentioning 'Add to Cart'. */
  predicate CartAdded(history: Json) {
    history.Arr? &&
    exists i :: 0 <= i < |history.items| && history.items[i].Str? && Contains(history.items[i].s, AddToCart)
  }

  /** `check_add_to_cart_in_shopping_history`: a record without a shopping
      history passes; one whose history is not a list (the runner saves
      None when nothing was bought) fails; otherwise some entry must
      mention 'Add to Cart'. */
  method CheckAddToCart(record: Fields) returns (ok: bool)
    ensures ok <==> !HasKey(record, "shopping_history") || CartAdded(GetOrNull(record, "shopping_history"))
    ensures Get(record, "shopping_history") == Some(Null) ==> !ok
  {
    if !HasKey(record, "shopping_history") {
      return true;
    }
    var history := GetOrNull(record, "shopping_history");
    if !history.Arr? {
      return false;
    }
    for i := 0 to |history.items|
      invariant forall k :: 0 <= k < i ==> !(history.items[k].Str? && Contains(history.items[k].s, AddToCart))
    {
      var item := history.items[i];
      if item.Str? && Contains(item.s, AddToCart) {
        return true;
      }
    }
    return false;
  }

  /** `sep.join(parts)`. */
  function Joined(parts: seq<string>, sep: string): string {
    if |parts| == 0 then []
    else if |parts| == 1 then parts[0]
    else parts[0] + sep + Joined(parts[1..], sep)
  }

  /** The reasons a web record reports, in the order they are checked. An
      absent shopping history passes the add-to-cart check and is reported
      as 'Add to Cart found' too. */
  function Reasons(buttonDisabled: bool, percentMatch: bool, addToCart: bool, hasHistory: bool): (r: seq<string>)
    ensures "Button 'Next' disabled" in r <==> buttonDisabled
    ensures "95% match with final step" in r <==> percentMatch
    ensures "Add to Cart found" in r <==> addToCart
    ensures "Missing 'Add to Cart' in shopping history" in r <==> !addToCart && hasHistory
  {
    (if buttonDisabled then ["Button 'Next' disabled"] else []) +
    (if percentMatch then ["95% match with final step"] else []) +
    (if addToCart then ["Add to Cart found"]
     else if hasHistory then ["Missing 'Add to Cart' in shopping history"] else [])
  }

  /** The verdict of cal_web_acc.py's `check_json_file` once the three
      conditions are known: success needs an original condition (the
      'Next' button disabled or a final-step match) and the add-to-cart
      check; the success message joins the reasons with ' & ', and a
      failure names the missing original condition before the missing
      'Add to Cart'. */
  method Verdict(buttonDisabled: bool, percentMatch: bool, addToCart: bool, hasHistory: bool)
    returns (successful: bool, message: string)
    ensures successful <==> (buttonDisabled || percentMatch) && addToCart
    ensures successful ==> message == Joined(Reasons(buttonDisabled, percentMatch, addToCart, hasHistory), " & ")
    ensures !successful ==> (message ==
      if !(buttonDisabled || percentMatch) then "No original conditions met"
      else if hasHistory then "Missing 'Add to Cart' requirement"
      else "Conditions not met")
  {
    var original := buttonDisabled || percentMatch;
    successful := original && addToCart;
    var reasons: seq<string> := [];
    if buttonDisabled {
      reasons := reasons + ["Button 'Next' disabled"];
    }
    if percentMatch {
      reasons := reasons + ["95% match with final step"];
    }
    if addToCart {
      reasons := reasons + ["Add to Cart found"];
    } else if hasHistory {
      reasons := reasons + ["Missing 'Add to Cart' in shopping history"];
    }
    assert reasons == Reasons(buttonDisabled, percentMatch, addToCart, hasHistory);
    if successful {
      message := Joined(reasons, " & ");
    } else if !original {
      message := "No original conditions met";
    } else if !addToCart && hasHistory {
      message := "Missing 'Add to Cart' requirement";
    } else {
      message := "Conditions not met";
    }
  }

  /** cal_web_acc.py's `check_json_file`. A record succeeds exactly when
      an original condition holds (an observation shows 'Next' disabled, or
      a switch action names the final step) and the add-to-cart check
      passes. A failure reports a missing trajectory first, then a missing
      original condition, and only then the missing 'Add to Cart': since a
      record without a shopping history passes the add-to-cart check, the
      script's last message, 'Conditions not met', is never produced.
      Iterating observations or actions that are not iterable raises
      TypeError. */
  method CheckWebRecord(record: Fields, finalStep: Option<string>, similar: (string, string) -> bool)
    returns (r: Result<(bool, string)>)
    ensures !HasTrajectory(record) ==> r == Ok((false, "Missing actions or observations"))
    ensures HasTrajectory(record) ==>
      (r.Err? <==> Iterated(Observations(record)).None? || Iterated(Actions(record)).None?)
    ensures r.Err? ==> r.error == TypeError
    ensures r.Ok? && HasTrajectory(record) ==>
      var buttonDisabled := NextDisabledSeen(Iterated(Observations(record)).value);
      var percentMatch := AnyMatchesFinalStep(Iterated(Actions(record)).value, finalStep, similar);
      var addToCart := !HasKey(record, "shopping_history") || CartAdded(GetOrNull(record, "shopping_history"));
      (r.value.0 <==> (buttonDisabled || percentMatch) && addToCart) &&
      (r.value.0 ==> (r.value.1 ==
        Joined(Reasons(buttonDisabled, percentMatch, addToCart, HasKey(record, "shopping_history")), " & "))) &&
      (!r.value.0 ==> (r.value.1 ==
        if !(buttonDisabled || percentMatch) then "No original conditions met"
        else "Missing 'Add to Cart' requirement"))
  {
    if !HasTrajectory(record) {
      return Ok((false, "Missing actions or observations"));
    }
    var addToCart := CheckAddToCart(record);
    var observations := Iterated(Observations(record));
    if observations.None? {
      return Err(TypeError);
    }
    var buttonDisabled := ScanObservations(observations.value);
    var actions := Iterated(Actions(record));
    if actions.None? {
      return Err(TypeError);
    }
    var percentMatch := ScanSwitches(actions.value, finalStep, similar);
    var successful, message := Verdict(buttonDisabled, percentMatch, addToCart, HasKey(record, "shopping_history"));
    return Ok((successful, message));
  }
}
