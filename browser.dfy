/** The Playwright side of the browser environments: the module-level
    `parse_action` that reads a script action, the choice of observation
    types in the `ScriptBrowserEnv` constructor, and the viewport a task
    configuration asks for in `setup`. */
module Browser {
  import opened Wrappers
  import opened Text
  import opened Json

  /** A `PlaywrightScript`: `goto <url>` or
      `get_by_role <destination> <name> <operation> [<value>]`. */
  datatype Script = Script(
    fn: string,
    destination: string,
    name: Option<string>,
    operation: Option<string>,
    value: Option<string>)

  /** `parse_action`: split the stripped action at single spaces and
      match the pieces. */
  function ParseScript(action: string): (r: Result<Script>)
  {
    ParsePieces(Split(Strip(action), ' '), action)
  }

  /** The `match` of `parse_action` on the pieces `t` of `action`. Fewer
      than two pieces, a `goto` with more than two or a `get_by_role` with
      fewer than four fail the asserts; a `get_by_role` with more than five
      pieces and any other head raise `ValueError`. */
  function ParsePieces(t: seq<string>, action: string): (r: Result<Script>)
  {
    if |t| < 2 then Err(AssertionError)
    else if t[0] == "goto" then
      if |t| == 2 then Ok(Script("goto", t[1], None, None, None)) else Err(AssertionError)
    else if t[0] == "get_by_role" then
      if |t| < 4 then Err(AssertionError)
      else if |t| == 4 then Ok(Script("get_by_role", t[1], Some(t[2]), Some(t[3]), None))
      else if |t| == 5 then Ok(Script("get_by_role", t[1], Some(t[2]), Some(t[3]), Some(t[4])))
      else Err(ValueError("Invalid action"))
    else Err(ValueError("Invalid action " + action))
  }

  /** The pieces of a script in the order an action writes them. */
  function Pieces(s: Script): seq<string> {
    [s.fn, s.destination]
    + (if s.name.Some? then [s.name.value] else [])
    + (if s.operation.Some? then [s.operation.value] else [])
    + (if s.value.Some? then [s.value.value] else [])
  }

  /** The action text that writes a script: its pieces joined by spaces. */
  function Render(s: Script): string {
    Join(Pieces(s), ' ')
  }

  /** A parsed script is the action it came from, stripped: nothing of the
      action is dropped or reordered. */
  lemma RenderParse(action: string)
    ensures ParseScript(action).Ok? ==> Render(ParseScript(action).value) == Strip(action)
  {
    var t := Split(Strip(action), ' ');
    ParsedPieces(t, action);
    JoinSplit(Strip(action), ' ');
  }

  /** A script matched from pieces writes exactly those pieces. */
  lemma ParsedPieces(t: seq<string>, action: string)
    ensures ParsePieces(t, action).Ok? ==> Pieces(ParsePieces(t, action).value) == t
  {
    if ParsePieces(t, action).Ok? {
      if |t| == 2 {
        assert t == [t[0], t[1]];
      } else if |t| == 4 {
        assert t == [t[0], t[1], t[2], t[3]];
      } else {
        assert t == [t[0], t[1], t[2], t[3], t[4]];
      }
    }
  }

  /** Which actions parse: `goto` with exactly two pieces, `get_by_role`
      with four or five; the others fail with the assert or `ValueError`. */
  lemma ParseAccepts(action: string)
    ensures var t := Split(Strip(action), ' ');
      && (ParseScript(action).Ok? <==>
        (t[0] == "goto" && |t| == 2) || (t[0] == "get_by_role" && 4 <= |t| <= 5))
      && (ParseScript(action).Err? ==>
        ParseScript(action).error == AssertionError || ParseScript(action).error.ValueError?)
  {
  }

  /** A script an action can express: a `goto` with a url, or a
      `get_by_role` with a name, an operation and perhaps a value, every
      piece free of whitespace and the last one non-empty. */
  predicate Expressible(s: Script) {
    var p := Pieces(s);
    ((s.fn == "goto" && s.name.None? && s.operation.None? && s.value.None?)
     || (s.fn == "get_by_role" && s.name.Some? && s.operation.Some?))
    && (forall i :: 0 <= i < |p| ==> NoSpace(p[i]))
    && p[|p| - 1] != []
  }

  predicate NoSpace(w: string) {
    forall i :: 0 <= i < |w| ==> !IsSpace(w[i])
  }

  /** Writing a script out and parsing it back gives the same script. */
  lemma ParseRender(s: Script)
    requires Expressible(s)
    ensures ParseScript(Render(s)) == Ok(s)
  {
    var p := Pieces(s);
    forall i | 0 <= i < |p|
      ensures ' ' !in p[i]
    {
      NoSpaceNoBlank(p[i]);
    }
    SplitJoin(p, ' ');
    JoinLast(p, ' ');
    var text := Render(s);
    assert text == p[0] + [' '] + Join(p[1..], ' ');
    assert text[0] == p[0][0];
    StripUnchanged(text);
    assert Split(Strip(text), ' ') == p;
    PiecesParse(s, text);
  }

  /** The pieces of a script an action can express match back to it. */
  lemma PiecesParse(s: Script, action: string)
    requires (s.fn == "goto" && s.name.None? && s.operation.None? && s.value.None?)
      || (s.fn == "get_by_role" && s.name.Some? && s.operation.Some?)
    ensures ParsePieces(Pieces(s), action) == Ok(s)
  {
    var p := Pieces(s);
    if s.fn == "goto" {
      assert p == ["goto", s.destination];
    } else {
      assert "get_by_role" != "goto";
      if s.value.Some? {
        assert p == ["get_by_role", s.destination, s.name.value, s.operation.value, s.value.value];
      } else {
        assert p == ["get_by_role", s.destination, s.name.value, s.operation.value];
      }
    }
  }

  lemma NoSpaceNoBlank(w: string)
    requires NoSpace(w)
    ensures ' ' !in w
  {
    forall k | 0 <= k < |w|
      ensures w[k] != ' '
    {
      assert !IsSpace(w[k]);
    }
  }

  /** A joined text ends with the last piece's last character. */
  lemma {:induction false} JoinLast(parts: seq<string>, sep: char)
    requires |parts| >= 1 && parts[|parts| - 1] != []
    ensures var s := Join(parts, sep);
      |s| > 0 && s[|s| - 1] == parts[|parts| - 1][|parts[|parts| - 1]| - 1]
    decreases |parts|
  {
    if |parts| > 1 {
      var rest := parts[1..];
      assert rest[|rest| - 1] == parts[|parts| - 1];
      JoinLast(rest, sep);
    }
  }

  /** The (text, image, main) observation types the constructor sets. */
  datatype ObservationTypes = ObservationTypes(text: string, image: string, main: string)

  /** The observation types each environment supports: the text-based
      one knows html, the accessibility tree and images; the vision-based
      one adds the captioned tree and set-of-marks images. */
  function Supported(vision: bool): set<string> {
    if vision then {"html", "accessibility_tree", "accessibility_tree_with_captioner", "image", "image_som"}
    else {"html", "accessibility_tree", "image"}
  }

  /** The `match observation_type` of the constructor. */
  function SelectObservation(observationType: string, vision: bool): (r: Result<ObservationTypes>)
    ensures r.Err? <==> observationType !in Supported(vision)
    ensures r.Err? ==> r.error == ValueError("Unsupported observation type: " + observationType)
    ensures r.Ok? && r.value.main == "text" ==> r.value.text == observationType && r.value.image == ""
    ensures r.Ok? && r.value.main != "text" ==>
      r.value.main == "image" && r.value.image == observationType &&
      r.value.text == (if observationType == "image_som" then observationType else "")
  {
    if observationType == "html" || observationType == "accessibility_tree" then
      Ok(ObservationTypes(observationType, "", "text"))
    else if vision && observationType == "accessibility_tree_with_captioner" then
      Ok(ObservationTypes(observationType, "", "text"))
    else if observationType == "image" then
      Ok(ObservationTypes("", observationType, "image"))
    else if vision && observationType == "image_som" then
      Ok(ObservationTypes(observationType, observationType, "image"))
    else
      Err(ValueError("Unsupported observation type: " + observationType))
  }

  /** The vision-based environment accepts every type the text-based one
      does and sets the same observation types for it. */
  lemma VisionExtendsText(observationType: string)
    ensures SelectObservation(observationType, false).Ok? ==>
      SelectObservation(observationType, true) == SelectObservation(observationType, false)
  {
  }

  /** `d.update(other)`: each entry of `other` in turn is written into `d`. */
  function Update(base: Fields, other: Fields): Fields
    decreases |other|
  {
    if other == [] then base else Update(Set(base, other[0].0, other[0].1), other[1..])
  }

  /** A dictionary's keys are distinct. */
  predicate UniqueKeys(fields: Fields) {
    forall i, j :: 0 <= i < j < |fields| ==> fields[i].0 != fields[j].0
  }

  /** After `d.update(other)` every key of `other` holds `other`'s value
      and every other key keeps `d`'s. */
  lemma {:induction false} UpdateGet(base: Fields, other: Fields, k: string)
    requires UniqueKeys(other)
    ensures Get(Update(base, other), k) == if HasKey(other, k) then Get(other, k) else Get(base, k)
    decreases |other|
  {
    if other != [] {
      var rest := other[1..];
      assert UniqueKeys(rest) by {
        forall i, j | 0 <= i < j < |rest|
          ensures rest[i].0 != rest[j].0
        {
          assert rest[i] == other[i + 1] && rest[j] == other[j + 1];
        }
      }
      UpdateGet(Set(base, other[0].0, other[0].1), rest, k);
      SetGet(base, other[0].0, other[0].1, k);
      if k == other[0].0 {
        forall i | 0 <= i < |rest|
          ensures Keys(rest)[i] != k
        {
          assert rest[i] == other[i + 1];
        }
        assert !HasKey(rest, k);
      } else {
        assert Keys(other) == [other[0].0] + Keys(rest);
      }
    }
  }

  /** `setup`'s viewport: a copy of the environment's default updated by
      the run configuration's `viewport_size`, none standing for `{}`;
      a value that is not a dictionary makes `update` raise. */
  function ViewportFor(default: Fields, config: Fields): (r: Result<Fields>)
    ensures r.Err? <==> HasKey(config, "viewport_size") && !Get(config, "viewport_size").value.Obj?
  {
    match Get(config, "viewport_size")
    case None => Ok(default)
    case Some(Obj(size)) => Ok(Update(default, size))
    case Some(_) => Err(TypeError)
  }

  /** A configured viewport overrides exactly the keys it gives. */
  lemma ViewportOverrides(default: Fields, config: Fields, k: string)
    requires Get(config, "viewport_size").Some? ==>
      (Get(config, "viewport_size").value.Obj? && UniqueKeys(Get(config, "viewport_size").value.fields))
    ensures ViewportFor(default, config).Ok?
    ensures var size := if HasKey(config, "viewport_size") then Get(config, "viewport_size").value.fields else [];
      Get(ViewportFor(default, config).value, k) ==
        if HasKey(size, k) then Get(size, k) else Get(default, k)
  {
    if HasKey(config, "viewport_size") {
      UpdateGet(default, Get(config, "viewport_size").value.fields, k);
    }
  }
}
