/** The geolocation agent (models/geolocation/agent.py): how a model name
    selects an API style, how texts enter a model's context, how the
    model's answers are parsed, and the two steps that grow a run's
    transcript: the confidence check and the web query. The language
    model and the web agent are oracles. */
module GeoAgent {
  import opened Wrappers
  import opened Text
  import opened Json
  import GeoUtils

  /** `model_family_to_api_style`: models served through the OpenAI
      client (gpt, qwen, internvl) share the "gpt" style. */
  function ModelFamilyToApiStyle(model: string): (r: Result<string>)
    ensures r == Ok("gemini") <==> IsPrefix("gemini", model)
    ensures r == Ok("gpt") <==>
      !IsPrefix("gemini", model) && (IsPrefix("gpt", model) || IsPrefix("qwen", model) || IsPrefix("internvl", model))
    ensures r.Err? <==>
      !(IsPrefix("gpt", model) || IsPrefix("gemini", model) || IsPrefix("qwen", model) || IsPrefix("internvl", model))
    ensures r.Err? ==> r.error == ValueError("Unknown model: " + model)
  {
    if IsPrefix("gpt", model) then
      assert model[1] == 'p';
      Ok("gpt")
    else if IsPrefix("gemini", model) then Ok("gemini")
    else if IsPrefix("qwen", model) then Ok("gpt")
    else if IsPrefix("internvl", model) then Ok("gpt")
    else Err(ValueError("Unknown model: " + model))
  }

  /** The families a run can be started with. */
  const Families: seq<string> := ["gpt", "gemini", "qwen", "internvl"]

  /** Every family a run accepts has an API style, and only "gemini" has
      the Gemini one. */
  lemma FamiliesHaveStyles(i: nat)
    requires i < |Families|
    ensures ModelFamilyToApiStyle(Families[i]) == if i == 1 then Ok("gemini") else Ok("gpt")
  {
    var f := Families[i];
    if i == 0 {
      assert IsPrefix("gpt", f);
    } else if i == 1 {
      assert IsPrefix("gemini", f);
    } else if i == 2 {
      assert !IsPrefix("gemini", f) && IsPrefix("qwen", f);
    } else {
      assert f[0] == 'i' && IsPrefix("internvl", f);
    }
  }

  /** An entry of a model's context: a JSON value (text, a message
      dictionary, or `None`), or a street-view picture, which is never
      inspected. */
  datatype Item = Value(json: Json) | Picture(coords: string, heading: int)

  /** `{"type": "text", "text": text}`. */
  function TextMessage(text: string): Json {
    Obj([("type", Str("text")), ("text", Str(text))])
  }

  /** `format_text`: the raw text for Gemini, a text message for gpt, and
      `None` for every other family (qwen included). */
  function FormatText(text: string, family: string): (r: Item)
    ensures r.Value?
    ensures r.json.Null? <==> family != "gemini" && family != "gpt"
  {
    if family == "gemini" then Value(Str(text))
    else if family == "gpt" then Value(TextMessage(text))
    else Value(Null)
  }

  /** `format_text` applied to each text, in order. */
  function Formatted(texts: seq<string>, family: string): (r: seq<Item>)
    ensures |r| == |texts| && forall i :: 0 <= i < |texts| ==> r[i] == FormatText(texts[i], family)
  {
    seq(|texts|, i requires 0 <= i < |texts| => FormatText(texts[i], family))
  }

  /** The texts themselves, as string values. */
  function Strs(texts: seq<string>): (r: seq<Item>)
    ensures |r| == |texts| && forall i :: 0 <= i < |texts| ==> r[i] == Value(Str(texts[i]))
  {
    seq(|texts|, i requires 0 <= i < |texts| => Value(Str(texts[i])))
  }

  /** `isinstance(entry, dict) and entry.get("type") == "text"`. */
  predicate IsTextEntry(entry: Item) {
    entry.Value? && entry.json.Obj? && Get(entry.json.fields, "type") == Some(Str("text"))
  }

  /** `[entry["text"] for entry in context if <text entry>]`: a text
      entry without a "text" key raises `KeyError`. */
  function TextEntries(context: seq<Item>): (r: Result<seq<Item>>)
    ensures r.Ok? ==> |r.value| <= |context|
    ensures r.Err? ==> r.error == KeyError
  {
    if context == [] then Ok([])
    else
      match TextEntries(context[1..])
      case Err(e) => Err(e)
      case Ok(rest) =>
        if !IsTextEntry(context[0]) then Ok(rest)
        else match Key(context[0].json, "text")
          case Err(e) => Err(e)
          case Ok(v) => Ok([Value(v)] + rest)
  }

  /** The query history `generate_web_query` shows the model: the texts
      of the text messages for gpt and qwen, the context as it is for
      Gemini; for any other family `query_history_entries` is never
      bound. */
  function QueryHistory(webContext: seq<Item>, family: string): (r: Result<seq<Item>>)
    ensures family == "gemini" ==> r == Ok(webContext)
    ensures family != "gpt" && family != "qwen" && family != "gemini" ==>
      r == Err(UnboundLocalError("query_history_entries"))
  {
    if family == "gpt" || family == "qwen" then TextEntries(webContext)
    else if family == "gemini" then Ok(webContext)
    else Err(UnboundLocalError("query_history_entries"))
  }

  /** The gpt messages `format_text` builds are read back as their texts. */
  lemma {:induction false} TextEntriesFormatted(texts: seq<string>)
    ensures TextEntries(Formatted(texts, "gpt")) == Ok(Strs(texts))
  {
    if texts != [] {
      TextEntriesFormatted(texts[1..]);
      assert Formatted(texts, "gpt")[1..] == Formatted(texts[1..], "gpt");
      var m := TextMessage(texts[0]);
      assert Get(m.fields, "type") == Some(Str("text"));
      assert Get(m.fields, "text") == Some(Str(texts[0])) by {
        assert m.fields[1..] == [("text", Str(texts[0]))];
      }
      assert IsTextEntry(Formatted(texts, "gpt")[0]);
      assert Strs(texts) == [Value(Str(texts[0]))] + Strs(texts[1..]);
    }
  }

  /** For gpt and Gemini the query history is exactly the texts that were
      formatted into the web context. */
  lemma HistoryOfFormatted(texts: seq<string>, family: string)
    requires family == "gpt" || family == "gemini"
    ensures QueryHistory(Formatted(texts, family), family) ==
      if family == "gpt" then Ok(Strs(texts)) else Ok(Formatted(texts, family))
  {
    if family == "gpt" {
      TextEntriesFormatted(texts);
    }
  }

  /** qwen formats every web result to `None`, so its query history is
      always empty. */
  lemma {:induction false} QwenHistoryEmpty(texts: seq<string>)
    ensures QueryHistory(Formatted(texts, "qwen"), "qwen") == Ok([])
  {
    if texts != [] {
      QwenHistoryEmpty(texts[1..]);
      assert Formatted(texts, "qwen")[1..] == Formatted(texts[1..], "qwen");
    }
  }

  /** `[c for c in content if c is not None]`. */
  function NonNull(context: seq<Item>): (r: seq<Item>)
    ensures |r| <= |context|
    ensures forall x :: x in r <==> x in context && x != Value(Null)
  {
    if context == [] then []
    else
      var rest := NonNull(context[1..]);
      assert forall x :: x in context <==> x == context[0] || x in context[1..];
      if context[0] == Value(Null) then rest else [context[0]] + rest
  }

  /** The prompts of prompt.py, by what is filled into them. */
  datatype Prompt =
    | GenerateAction(actions: seq<string>, initialId: string, currentId: string)
    | GenerateWebQuery(history: seq<Item>)
    | EstimateConfidence

  /** One call of the language model: the API style, the prompt, the
      context without `None` entries, and which attempt of its caller this
      is. */
  datatype Request = Request(style: string, prompt: Prompt, context: seq<Item>, attempt: nat)

  /** The fields `parse(output, 'web_query')` extracts. */
  datatype WebQuery = WebQuery(intentTemplate: string, intent: string, element: string, stringNote: string)

  /** What the web agent reports for a query: its answer and the id of
      the query. */
  datatype VwaRun = VwaRun(result: string, queryId: string)

  /** The language model answers a request; the web agent answers a query
      (given `max_tries`, the family and the attempt), or raises. */
  datatype Oracles = Oracles(vlm: Request -> string, vwa: (WebQuery, nat, string, nat) -> Result<VwaRun>)

  /** The agent: its exact model and its family. */
  datatype Agent = Agent(model: string, family: string)

  /** `call_vlm`: the family decides the API style (or raises), and the
      model is asked with the `None` entries of the context dropped. */
  function CallVlm(agent: Agent, prompt: Prompt, context: seq<Item>, attempt: nat, o: Oracles): (r: Result<string>)
    ensures r.Err? <==> ModelFamilyToApiStyle(agent.family).Err?
    ensures r.Ok? ==> exists style :: r.value == o.vlm(Request(style, prompt, NonNull(context), attempt))
  {
    match ModelFamilyToApiStyle(agent.family)
    case Err(e) => Err(e)
    case Ok(style) => Ok(o.vlm(Request(style, prompt, NonNull(context), attempt)))
  }

  const ActionMarker := "Action:"
  const ConfidenceMarker := "Confidence:"

  /** `re.MULTILINE`'s `^`: position `k` starts a line. */
  predicate LineStart(s: string, k: int) {
    k == 0 || (0 < k <= |s| && s[k - 1] == '\n')
  }

  /** The first line at or after `k` that starts with "Action:"; -1 if
      none does. */
  function ActionLine(s: string, k: nat): (r: int)
    ensures r == -1 || (k <= r && LineStart(s, r) && OccursAt(s, ActionMarker, r))
    ensures forall q :: k <= q && (r == -1 || q < r) && LineStart(s, q) ==> !OccursAt(s, ActionMarker, q)
    decreases |s| - k
  {
    var q := FindSub(s, ActionMarker, k);
    if q == -1 then -1
    else if LineStart(s, q) then q
    else ActionLine(s, q + 1)
  }

  /** `parse(output, 'action')`: `^Action:\s*(.*)$` in multiline mode, the
      group stripped; the whitespace after the marker may span lines. */
  function ParseAction(output: string): (r: Option<string>)
    ensures r.None? <==> forall q :: LineStart(output, q) ==> !OccursAt(output, ActionMarker, q)
    ensures r.Some? ==> '\n' !in r.value && (r.value != [] ==> !IsSpace(r.value[0]) && !IsSpace(r.value[|r.value| - 1]))
  {
    var q := ActionLine(output, 0);
    if q == -1 then None else Some(GeoUtils.FieldLine(output, ActionMarker, q))
  }

  datatype Confidence = High | Medium | Low

  function Word(c: Confidence): string {
    match c
    case High => "High"
    case Medium => "Medium"
    case Low => "Low"
  }

  /** The level whose word starts at `j`, if any: the alternation
      `(High|Medium|Low)`. */
  function LevelAt(s: string, j: nat): (r: Option<Confidence>)
    requires j <= |s|
    ensures r.Some? ==> OccursAt(s, Word(r.value), j)
    ensures r.None? ==> forall c: Confidence :: !OccursAt(s, Word(c), j)
  {
    if IsPrefix("High", s[j..]) then Some(High)
    else if IsPrefix("Medium", s[j..]) then Some(Medium)
    else if IsPrefix("Low", s[j..]) then Some(Low)
    else
      assert forall c: Confidence :: OccursAt(s, Word(c), j) ==> IsPrefix(Word(c), s[j..]);
      None
  }

  /** A marker at `q` that whitespace and `level` follow. */
  predicate LevelAfter(s: string, marker: string, q: int, level: Option<Confidence>) {
    OccursAt(s, marker, q) && LevelAt(s, SkipSpaces(s, q + |marker|)) == level
  }

  /** The level at each index of `s`, as the search reads it. */
  function LevelsOf(s: string): nat -> Option<Confidence> {
    (j: nat) => if j <= |s| then LevelAt(s, j) else None
  }

  /** A marker at `q` that whitespace and `level`, read by `at`, follow. */
  predicate MarkedAfter(s: string, marker: string, q: int, level: Option<Confidence>, at: nat -> Option<Confidence>) {
    OccursAt(s, marker, q) && at(SkipSpaces(s, q + |marker|)) == level
  }

  /** `re.search` for the marker, whitespace and a value read by `at`:
      the first marker at or after `k` that a value follows. */
  function MarkedSearch(s: string, marker: string, k: nat, at: nat -> Option<Confidence>): (r: Option<Confidence>)
    requires marker != []
    ensures r.Some? ==> exists q :: k <= q && MarkedAfter(s, marker, q, r, at)
    ensures r.None? ==> forall q :: k <= q && OccursAt(s, marker, q) ==> MarkedAfter(s, marker, q, None, at)
    decreases |s| - k
  {
    if k + |marker| > |s| then None
    else
      var level := if OccursAt(s, marker, k) then at(SkipSpaces(s, k + |marker|)) else None;
      if level.Some? then
        assert MarkedAfter(s, marker, k, level, at);
        level
      else
        MarkedSearch(s, marker, k + 1, at)
  }

  /** With no marker from `k` up to `p` and a value after the marker at
      `p`, the search returns that value. */
  lemma {:induction false} MarkedSearchAt(s: string, marker: string, k: nat, p: nat, at: nat -> Option<Confidence>)
    requires marker != [] && k <= p && OccursAt(s, marker, p)
    requires forall q :: k <= q < p ==> !OccursAt(s, marker, q)
    requires at(SkipSpaces(s, p + |marker|)).Some?
    ensures MarkedSearch(s, marker, k, at) == at(SkipSpaces(s, p + |marker|))
    decreases p - k
  {
    if k < p {
      MarkedSearchAt(s, marker, k + 1, p, at);
    }
  }

  /** Reading the levels of `s` is `LevelAt` after a marker. */
  lemma LevelsOfAfter(s: string, marker: string, q: int, level: Option<Confidence>)
    ensures MarkedAfter(s, marker, q, level, LevelsOf(s)) <==> LevelAfter(s, marker, q, level)
  {
  }

  /** `parse(output, 'confidence')`: High, Medium, Low, or `None`. */
  function ParseConfidence(output: string): (r: Option<Confidence>)
    ensures r.Some? ==> exists q :: LevelAfter(output, ConfidenceMarker, q, r)
    ensures r.None? ==> forall q :: OccursAt(output, ConfidenceMarker, q) ==> LevelAfter(output, ConfidenceMarker, q, None)
  {
    var r := MarkedSearch(output, ConfidenceMarker, 0, LevelsOf(output));
    if r.Some? then
      var q :| 0 <= q && MarkedAfter(output, ConfidenceMarker, q, r, LevelsOf(output));
      LevelsOfAfter(output, ConfidenceMarker, q, r);
      r
    else
      assert forall q :: OccursAt(output, ConfidenceMarker, q) ==> LevelAfter(output, ConfidenceMarker, q, None) by {
        forall q | OccursAt(output, ConfidenceMarker, q)
          ensures LevelAfter(output, ConfidenceMarker, q, None)
        {
          LevelsOfAfter(output, ConfidenceMarker, q, None);
        }
      }
      r
  }

  /** A field of the web-query answer: the stripped line after its
      marker, brackets cleaned; "" without the marker. */
  function QueryField(output: string, marker: string): (r: string)
    ensures r != [] ==> !IsSpace(r[0]) && !IsSpace(r[|r| - 1])
  {
    GeoUtils.CleanBrackets(GeoUtils.FieldAfter(output, marker).GetOr(""))
  }

  /** `parse(output, 'web_query')`. */
  function ParseWebQuery(output: string): WebQuery {
    WebQuery(QueryField(output, "Intent Template:"), QueryField(output, "Intent:"),
             QueryField(output, "Element:"), QueryField(output, "String Note:"))
  }

  /** The text of line `v` after the marker at `p` and the whitespace
      that follows it, stripped, is `v`. */
  lemma LineAfterMarker(s: string, p: nat, marker: string, g: nat, v: string)
    requires p + |marker| <= g && g + |v| < |s| && OccursAt(s, marker, p)
    requires forall k :: p + |marker| <= k < g ==> IsSpace(s[k])
    requires s[g..g + |v|] == v && s[g + |v|] == '\n'
    requires v != [] && !IsSpace(v[0]) && !IsSpace(v[|v| - 1]) && '\n' !in v
    ensures GeoUtils.FieldLine(s, marker, p) == v
  {
    assert s[g] == v[0] && !IsSpace(s[g]);
    assert SkipSpaces(s, p + |marker|) == g;
    assert forall i :: g <= i < g + |v| ==> s[i] == v[i - g];
    FindFromIs(s, '\n', g, g + |v|);
    StripUnchanged(v);
  }

  /** Where the parts of "<pre><marker><gap><v>\n<post>" lie. */
  lemma LineLayout(pre: string, marker: string, gap: char, v: string, post: string)
    ensures var s := pre + marker + [gap] + v + "\n" + post;
      var g := |pre| + |marker| + 1;
      s[..|pre|] == pre && OccursAt(s, marker, |pre|) && s[g - 1] == gap &&
      g + |v| < |s| && s[g..g + |v|] == v && s[g + |v|] == '\n'
  {
    var s := pre + marker + [gap] + v + "\n" + post;
    assert s == pre + marker + ([gap] + v + "\n" + post);
    OccursBetween(pre, marker, [gap] + v + "\n" + post);
    OccursBetween(pre + marker + [gap], v, "\n" + post);
  }

  /** Where the parts of "<pre><marker> <w><post>" lie. */
  lemma WordLayout(pre: string, marker: string, w: string, post: string)
    ensures var s := pre + marker + [' '] + w + post;
      var g := |pre| + |marker| + 1;
      OccursAt(s, marker, |pre|) && s[g - 1] == ' ' && OccursAt(s, w, g)
  {
    var s := pre + marker + [' '] + w + post;
    assert s == pre + marker + ([' '] + w + post);
    OccursBetween(pre, marker, [' '] + w + post);
    OccursBetween(pre + marker + [' '], w, post);
  }

  /** A field written as "<marker> <v>" on its own line, with no earlier
      occurrence of the marker, reads back as `v`. */
  lemma FieldRoundTrip(pre: string, marker: string, v: string, post: string)
    requires forall q :: 0 <= q < |pre| ==> !OccursAt(pre + marker + [' '] + v + "\n" + post, marker, q)
    requires v != [] && !IsSpace(v[0]) && !IsSpace(v[|v| - 1]) && '\n' !in v
    ensures GeoUtils.FieldAfter(pre + marker + [' '] + v + "\n" + post, marker) == Some(v)
  {
    var s := pre + marker + [' '] + v + "\n" + post;
    var p, g := |pre|, |pre| + |marker| + 1;
    LineLayout(pre, marker, ' ', v, post);
    FindSubIs(s, marker, 0, p);
    LineAfterMarker(s, p, marker, g, v);
    FieldAfterAt(s, marker, p);
  }

  /** `FieldAfter` reads the line after the first occurrence of the marker. */
  lemma FieldAfterAt(s: string, marker: string, p: nat)
    requires p + |marker| <= |s| && FindSub(s, marker, 0) == p
    ensures GeoUtils.FieldAfter(s, marker) == Some(GeoUtils.FieldLine(s, marker, p))
  {
  }

  /** `ActionLine` finds the first line that starts with the marker. */
  lemma {:induction false} ActionLineIs(s: string, k: nat, p: nat)
    requires k <= p && LineStart(s, p) && OccursAt(s, ActionMarker, p)
    requires forall q :: k <= q < p && LineStart(s, q) ==> !OccursAt(s, ActionMarker, q)
    ensures ActionLine(s, k) == p
    decreases p - k
  {
    var q := FindSub(s, ActionMarker, k);
    if q != p {
      ActionLineIs(s, q + 1, p);
    }
  }

  /** An action written on the line after "Action:" is found there: the
      whitespace after the marker spans the line break. */
  lemma ActionOnNextLine(pre: string, v: string, post: string)
    requires pre == [] || pre[|pre| - 1] == '\n'
    requires forall q :: 0 <= q < |pre| && LineStart(pre + ActionMarker + "\n" + v + "\n" + post, q) ==>
      !OccursAt(pre + ActionMarker + "\n" + v + "\n" + post, ActionMarker, q)
    requires v != [] && !IsSpace(v[0]) && !IsSpace(v[|v| - 1]) && '\n' !in v
    ensures ParseAction(pre + ActionMarker + "\n" + v + "\n" + post) == Some(v)
  {
    var s := pre + ActionMarker + "\n" + v + "\n" + post;
    var p, g := |pre|, |pre| + |ActionMarker| + 1;
    LineLayout(pre, ActionMarker, '\n', v, post);
    assert LineStart(s, p) by {
      if p > 0 {
        assert s[p - 1] == pre[p - 1];
      }
    }
    ActionLineIs(s, 0, p);
    LineAfterMarker(s, p, ActionMarker, g, v);
    ParseActionAt(s, p);
  }

  /** `ParseAction` reads the line after the first line-start marker. */
  lemma ParseActionAt(s: string, p: nat)
    requires p + |ActionMarker| <= |s| && ActionLine(s, 0) == p
    ensures ParseAction(s) == Some(GeoUtils.FieldLine(s, ActionMarker, p))
  {
  }

  /** "Confidence: <level>" with no earlier marker reads back as the
      level. */
  lemma ConfidenceRoundTrip(pre: string, c: Confidence, post: string)
    requires forall q :: 0 <= q < |pre| ==> !OccursAt(pre + ConfidenceMarker + [' '] + Word(c) + post, ConfidenceMarker, q)
    ensures ParseConfidence(pre + ConfidenceMarker + [' '] + Word(c) + post) == Some(c)
  {
    var s := pre + ConfidenceMarker + [' '] + Word(c) + post;
    var p, g := |pre|, |pre| + |ConfidenceMarker| + 1;
    WordLayout(pre, ConfidenceMarker, Word(c), post);
    assert s[g] == Word(c)[0] && !IsSpace(s[g]);
    assert SkipSpaces(s, g - 1) == g;
    assert LevelAt(s, g) == Some(c) by {
      assert s[g..][..|Word(c)|] == Word(c);
    }
    MarkedSearchAt(s, ConfidenceMarker, 0, p, LevelsOf(s));
  }

  /** The failure messages the web agent reports. */
  const KnownFailures: seq<string> := [
    "Early stop",
    "Same typing action for 5 times",
    "Failed to parse actions for 3 times",
    "ERROR: No parsed_action found",
    "ERROR: Empty parsed_action",
    "ERROR: VWA subprocess timed out"
  ]

  /** `is_vwa_success`: no known failure occurs in the result, ignoring
      case. */
  function IsVwaSuccess(result: string): bool {
    forall i | 0 <= i < |KnownFailures| :: !Contains(Lower(result), Lower(KnownFailures[i]))
  }

  lemma LowerConcat(a: string, b: string)
    ensures Lower(a + b) == Lower(a) + Lower(b)
  {
  }

  /** A known failure, in any letter case, anywhere in the result makes
      it a failure. */
  lemma FailureDetected(pre: string, w: string, post: string, i: nat)
    requires i < |KnownFailures| && Lower(w) == Lower(KnownFailures[i])
    ensures !IsVwaSuccess(pre + w + post)
  {
    LowerConcat(pre + w, post);
    LowerConcat(pre, w);
    OccursBetween(Lower(pre), Lower(w), Lower(post));
    ContainsAt(Lower(pre + w + post), Lower(KnownFailures[i]), |pre|);
  }

  /** An empty result counts as a success, which is why `do_web_query`
      rejects "" separately. */
  lemma EmptyIsSuccess()
    ensures IsVwaSuccess("")
  {
    forall i | 0 <= i < |KnownFailures|
      ensures !Contains(Lower(""), Lower(KnownFailures[i]))
    {
      assert |Lower(KnownFailures[i])| > 0;
    }
  }

  const ResultsNote := "Here are some relevant web search results."

  /** The context `evaluate_confidence` sends: the images, then, when
      there are web results, a copy of them followed by the note. */
  function ConfidenceContext(images: seq<Item>, webContext: seq<Item>, family: string): (r: seq<Item>)
    ensures webContext == [] ==> r == images
    ensures webContext != [] ==> |r| == |images| + |webContext| + 1 && r[..|images|] == images &&
                                 r[|images|..|images| + |webContext|] == webContext
  {
    images + (if webContext != [] then webContext + [FormatText(ResultsNote, family)] else [])
  }

  /** `evaluate_confidence`: the model's confidence about the images and
      web results, parsed. */
  function EvaluateConfidence(agent: Agent, images: seq<Item>, webContext: seq<Item>, o: Oracles): (r: Result<Option<Confidence>>)
    ensures r.Err? <==> ModelFamilyToApiStyle(agent.family).Err?
  {
    match CallVlm(agent, EstimateConfidence, ConfidenceContext(images, webContext, agent.family), 0, o)
    case Err(e) => Err(e)
    case Ok(response) => Ok(ParseConfidence(response))
  }

  /** `generate_action`: the model's answer to the action prompt, parsed
      as an action. */
  function GenerateActionFor(agent: Agent, actions: seq<string>, initialId: string, currentId: string,
                             attempt: nat, o: Oracles): (r: Result<Option<string>>)
    ensures r.Err? <==> ModelFamilyToApiStyle(agent.family).Err?
  {
    match CallVlm(agent, GenerateAction(actions, initialId, currentId), [], attempt, o)
    case Err(e) => Err(e)
    case Ok(response) => Ok(ParseAction(response))
  }

  /** The move-history entry `is_confident` writes: `str(confidence)`. */
  function ConfidenceEntry(c: Option<Confidence>): string {
    "Estimating Confidence: " + (match c case Some(level) => Word(level) case None => "None")
  }

  /** `generate_web_query`: the query history first (which may be
      unbound), then the model's answer parsed. */
  function GenerateWebQueryFor(agent: Agent, images: seq<Item>, webContext: seq<Item>, attempt: nat, o: Oracles): (r: Result<WebQuery>)
    ensures r.Err? <==> QueryHistory(webContext, agent.family).Err?
  {
    match QueryHistory(webContext, agent.family)
    case Err(e) => Err(e)
    case Ok(history) =>
      assert agent.family == Families[0] || agent.family == Families[1] || agent.family == Families[2];
      FamiliesHaveStyles(0);
      FamiliesHaveStyles(1);
      FamiliesHaveStyles(2);
      match CallVlm(agent, GenerateWebQuery(history), images, attempt, o)
      case Err(e) => Err(e)
      case Ok(response) => Ok(ParseWebQuery(response))
  }

  /** What one `do_web_query` adds: the web-context entry, the three
      move-history lines, the attempts it took, and the result used. */
  datatype Consult = Consult(entry: Item, lines: seq<string>, attempts: nat, result: string)

  const Answered := "Web Query Response: "
  const Fallback := "Web Query Response (final fallback): "

  /** A non-empty result with no known failure is accepted. */
  predicate Accepted(result: string) {
    IsVwaSuccess(result) && result != ""
  }

  function Report(agent: Agent, q: WebQuery, run: VwaRun, heading: string, attempts: nat): Consult {
    Consult(FormatText(q.intent + ": " + run.result, agent.family),
            ["Querying Web: " + q.intent, "Web Query ID: " + run.queryId, heading + run.result],
            attempts, run.result)
  }

  /** The attempts of `do_web_query` from attempt `k` on: the first
      accepted result is reported, or, after the last attempt, the last
      result as the fallback. */
  function WebQueryFrom(agent: Agent, images: seq<Item>, webContext: seq<Item>, o: Oracles,
                        maxTries: nat, maxNewQueries: nat, k: nat): (r: Result<Consult>)
    requires k <= maxNewQueries
    ensures r.Ok? ==> k < r.value.attempts <= maxNewQueries + 1 && |r.value.lines| == 3
    ensures r.Ok? && r.value.attempts <= maxNewQueries ==>
      Accepted(r.value.result) && r.value.lines[2] == Answered + r.value.result
    ensures r.Ok? && !Accepted(r.value.result) ==>
      r.value.attempts == maxNewQueries + 1 && r.value.lines[2] == Fallback + r.value.result
    decreases maxNewQueries - k
  {
    match GenerateWebQueryFor(agent, images, webContext, k, o)
    case Err(e) => Err(e)
    case Ok(q) =>
      match o.vwa(q, maxTries, agent.family, k)
      case Err(e) => Err(e)
      case Ok(run) =>
        if Accepted(run.result) then Ok(Report(agent, q, run, Answered, k + 1))
        else if k == maxNewQueries then Ok(Report(agent, q, run, Fallback, k + 1))
        else WebQueryFrom(agent, images, webContext, o, maxTries, maxNewQueries, k + 1)
  }

  /** The lists a run grows: the image messages, the web context and the
      move history. */
  class Transcript {
    var images: seq<Item>
    var webContext: seq<Item>
    var moveHistory: seq<string>

    constructor ()
      ensures images == [] && webContext == [] && moveHistory == []
    {
      images, webContext, moveHistory := [], [], [];
    }

    /** `is_confident`: asks for the confidence, appends exactly one
        move-history entry, and is true iff the answer is High; the web
        context is left as it was. */
    method IsConfident(agent: Agent, o: Oracles) returns (r: Result<bool>)
      modifies this
      ensures images == old(images) && webContext == old(webContext)
      ensures var c := EvaluateConfidence(agent, old(images), old(webContext), o);
        (c.Err? ==> r == Err(c.error) && moveHistory == old(moveHistory)) &&
        (c.Ok? ==> r == Ok(c.value == Some(High)) && moveHistory == old(moveHistory) + [ConfidenceEntry(c.value)])
    {
      var c := EvaluateConfidence(agent, images, webContext, o);
      if c.Err? {
        return Err(c.error);
      }
      moveHistory := moveHistory + [ConfidenceEntry(c.value)];
      r := Ok(c.value == Some(High));
    }

    /** `do_web_query`: at most `maxNewQueries + 1` attempts; the first
        accepted result, or the last one as the fallback, adds exactly one
        web-context entry and three move-history lines. */
    method DoWebQuery(agent: Agent, o: Oracles, maxTries: nat, maxNewQueries: nat) returns (r: Result<()>)
      modifies this
      ensures images == old(images)
      ensures var w := WebQueryFrom(agent, old(images), old(webContext), o, maxTries, maxNewQueries, 0);
        (w.Err? ==> r == Err(w.error) && webContext == old(webContext) && moveHistory == old(moveHistory)) &&
        (w.Ok? ==> r == Ok(()) && webContext == old(webContext) + [w.value.entry] &&
                   moveHistory == old(moveHistory) + w.value.lines)
    {
      ghost var w := WebQueryFrom(agent, images, webContext, o, maxTries, maxNewQueries, 0);
      var q: WebQuery, run: VwaRun := WebQuery("", "", "", ""), VwaRun("", "");
      for attempt := 0 to maxNewQueries + 1
        invariant images == old(images) && webContext == old(webContext) && moveHistory == old(moveHistory)
        invariant attempt <= maxNewQueries ==>
          w == WebQueryFrom(agent, images, webContext, o, maxTries, maxNewQueries, attempt)
        invariant attempt > maxNewQueries ==> w == Ok(Report(agent, q, run, Fallback, attempt))
      {
        var query := GenerateWebQueryFor(agent, images, webContext, attempt, o);
        if query.Err? {
          return Err(query.error);
        }
        q := query.value;
        var answer := o.vwa(q, maxTries, agent.family, attempt);
        if answer.Err? {
          return Err(answer.error);
        }
        run := answer.value;
        if Accepted(run.result) {
          var c := Report(agent, q, run, Answered, attempt + 1);
          webContext := webContext + [c.entry];
          moveHistory := moveHistory + c.lines;
          return Ok(());
        }
      }
      var c := Report(agent, q, run, Fallback, maxNewQueries + 1);
      webContext := webContext + [c.entry];
      moveHistory := moveHistory + c.lines;
      r := Ok(());
    }
  }
}
